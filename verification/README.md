# FlavourFlow Home screen, modelled in Dafny

FlavourFlow is a React Native recipe browser over a public meal API. Its only
behaviour beyond layout lives in the `Home` screen (`app/home.tsx`): six pieces
of view state (category recipes, selected category, search query, search
results, selected recipe, modal visibility), the handlers that change them, the
list and heading derived from them, and the ingredient section of the
recipe-detail overlay.

This project models that screen in two parts.

- `home.dfy` (module `Home`): the view state as an immutable `State`, every user
  action and every fetch completion as an `Event`, and a pure
  `Step(state, event)` that returns the next state together with the remote
  request the event issues, if any. A completion is an event applied whenever
  it arrives, so "the last response wins" is explicit. `VisibleList` and
  `Title` are the grid's data and heading. `Run` applies a sequence of events.
- `ingredients.dfy` (module `Ingredients`): the key scan of the overlay. Keys
  are visited in order. A key is kept when it starts with `strIngredient` and
  its value is truthy. A kept key is paired with the value under `strMeasure`
  followed by the key's first digit run, or with `No measure available` when
  that value is falsy.
- `recipes.dfy` (module `Recipes`): a recipe as an ordered list of
  `(key, value)` fields, JavaScript truthiness, and key lookup.
- `wrappers.dfy` (module `Wrappers`): `Option`, standing for `null`/`undefined`.

Behaviour a reader may not expect, which the model keeps as the code has it:

- a delivered category fetch stores `data.meals` verbatim, so the category
  recipes can become `null` (None); no empty-list substitution is made;
- dismissing the overlay only hides it; the selected recipe is kept;
- there are no request sequence numbers, no Pending/Failed states and no stale
  response rejection: a completion for a category no longer selected still
  replaces the category recipes;
- a lookup whose `meals` is an empty array is truthy, so it opens the overlay
  with `data.meals[0]`, which is `undefined`. Hence "modal visible implies a
  recipe is selected" holds only while lookups deliver at least one recipe.
  `Home.EmptyLookupOpensEmptyModal` exhibits the exception.

## Model

| member | source | states |
|---|---|---|
| `Recipes.Get` | app/home.tsx:102 | `recipe[key]` yields a value exactly when the object has that key, and the value is the one stored under it |
| `Ingredients.FirstDigitRun` | app/home.tsx:101 | `key.match(/\d+/)?.[0]` is absent exactly when the key holds no digit; otherwise it is a non-empty run of digits |
| `Ingredients.FirstDigitRunOf` | app/home.tsx:101 | the match is the leftmost maximal digit run: after a digit-free prefix, it takes digits up to the first non-digit |
| `Ingredients.MeasureKeyOfIngredient` | app/home.tsx:101 | the measure key of `strIngredient<N><rest>` is `strMeasure<N>` for a digit run N |
| `Ingredients.MeasureKeyWithoutDigits` | app/home.tsx:101 | a key with no digit makes the template read `strMeasureundefined` |
| `Ingredients.MeasureKey` | app/home.tsx:101 | the measure key always begins with `strMeasure` followed by something (which suffix: `Ingredients.MeasureKeyOfIngredient`, `Ingredients.MeasureKeyWithoutDigits`) |
| `Ingredients.IngredientLines` | app/home.tsx:99-110 | at most one line per key, each with a non-empty ingredient and a non-empty measure (the full description: `Ingredients.IngredientLinesFollowKeptKeys`) |
| `Ingredients.KeptPositions` | app/home.tsx:99-100 | the kept keys are exactly those starting with `strIngredient` with a truthy value, listed in increasing key order |
| `Ingredients.IngredientLinesFollowKeptKeys` | app/home.tsx:99-110 | one line per kept key, in key order, no other key contributing; each shows its value and the measure value, or `No measure available` when the measure is absent, null or empty |
| `Home.Step` | app/home.tsx:28-84 | each slot has its own writers (the modal flag: lookups and dismissal; every other slot: one kind of event); a fetch is issued exactly for a category change, a non-empty submit (button or Enter) and a recipe click; the modal opens only on a delivered lookup |
| `Home.Submit` | app/home.tsx:39-53 | `handleSearch` leaves the state as it is and issues a search for the query exactly when the query is non-empty (see `Home.EmptySubmitIsNoOp`) |
| `Home.VisibleList` | app/home.tsx:183 | the grid shows either the search results or the category recipes (which one: `Home.TitleMatchesList`) |
| `Home.Title` | app/home.tsx:179 | the heading is `Search Results` or begins with `Recipes for ` (under which test: `Home.TitleMatchesList`) |
| `Home.MountView` | app/home.tsx:21-36 | mount state: category `Seafood`, empty query, empty lists, nothing selected, modal hidden, and one category fetch |
| `Home.TitleMatchesList` | app/home.tsx:178-183 | the heading is `Search Results` exactly when search results are non-empty and shown; otherwise the category recipes are shown under `Recipes for <category>` |
| `Home.EmptySubmitIsNoOp` | app/home.tsx:39-59 | submitting an empty query, by button or by key, changes no slot and issues no fetch |
| `Home.OnlyEnterSubmits` | app/home.tsx:56-60 | a key press submits only when the key is `Enter`, and then acts exactly as the search button |
| `Home.SearchCompletion` | app/home.tsx:43-50 | a delivered search replaces the results wholesale, null meaning the empty list; a failed one leaves the state unchanged |
| `Home.EditKeepsView` | app/home.tsx:146 | editing stores the text verbatim and changes nothing else; the grid and heading stay as they were, even when the query is cleared |
| `Home.CategoryCompletion` | app/home.tsx:29-36 | a delivered category fetch stores `data.meals` as received, null included; a failed one changes nothing |
| `Home.CategoryKeepsSearchPrecedence` | app/home.tsx:165-183 | choosing a category changes only the category; non-empty search results keep the grid and heading, before and after the category fetch completes |
| `Home.LastCategoryResponseWins` | app/home.tsx:29-36 | the later delivered category completion decides the recipes, whatever came first; a later failed one leaves the earlier result in place |
| `Home.ReselectIssuesNoFetch` | app/home.tsx:29-36 | choosing the category already selected changes nothing and issues no fetch, since the effect only reruns on a change |
| `Home.DetailHandling` | app/home.tsx:63-84 | a lookup delivering recipes selects the first and opens the modal; null or failure changes nothing; dismissal only hides the modal |
| `Home.ModalInvariant` | app/home.tsx:63-84 | while lookups deliver at least one recipe, any run of events keeps "modal visible implies a recipe is selected", and a selection is never cleared |
| `Home.ModalShowsRecipeFromMount` | app/home.tsx:21-84 | from mount, every run of events with non-empty lookups keeps the modal from showing without a recipe |
| `Home.EmptyLookupOpensEmptyModal` | app/home.tsx:67-69 | an empty lookup array opens the modal with no recipe selected, breaking the invariant above |

## Left out

- HTTP `fetch`, URL construction, `response.json()` and the meal API endpoints: each fetch is a `Request` value, and its completion is a `Response` event (`Failed`, or `Delivered` with an optional meals list). Any exception in the `then` chain counts as `Failed`. The unencoded interpolation of the query into the URL is not modelled.
- Asynchrony: completions are applied in the order they arrive, whatever that order is. No in-flight bookkeeping exists in the code, and none is added. The event model deliberately over-approximates: it also admits completions nobody requested (a `DetailFetched` straight after mount opens the modal without a `ClickRecipe`). This is why no property ties a completion to an earlier request.
- `console.error` logging on failure, `Keyboard.dismiss()` after a search, all rendering, styling, animation and the `Loading...` placeholder.
- JavaScript values other than strings and `null` in recipe fields: the meal API sends only those, so numbers, booleans and nested objects are not modelled.
- Distinct keys: a recipe object has no repeated keys; the model does not enforce this, and lookup returns the first field with the key.
- The contents of `categories.json`: category names are arbitrary strings.
- `app/index.tsx`, `app/CreateProfile.tsx` and the icon components: navigation, a stub form and static SVG, with no state logic.
- A "selected id equals clicked id" property: the code never checks that the looked-up recipe carries the clicked id, so none is stated.
