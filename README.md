# Blog admin panel: accordion, article list and category editor, in Dafny

This project models the three pieces of the blog admin dashboard that hold
real state-transition or arithmetic rules, and proves properties of them:

- **Accordion** (`accordion.dfy`, module `Accordion`). This is the open-items value of the
  accordion component. `Toggle` is the pure new-value computation of
  `handleValueChange`:
  - in `multiple` mode it removes every occurrence of the item, or appends it when absent;
  - in `single` mode it switches between the item and `null`.
  `IsOpenAsWritten` is the open test the trigger and the content apply, and so what is shown
  open. `IsOpen` is the corrected reading of that test (see Findings), which reads the value
  exactly as the toggle does. The class `AccordionRoot` holds the props, the uncontrolled
  `internalValue` and the values reported to `onValueChange`.
- **Article list** (`articles_list.dfy`, module `ArticlesList`). This covers:
  - the request parameters `loadArticles` builds from the filters (`'all'` and an empty search
    become absent);
  - the "Showing X to Y of Z" window;
  - the Previous/Next guards and their ±1 steps.
  The class `ArticlesPage` holds the store's articles, filters and pagination, and the page's
  `loading` flag.
- **Category editor** (`category_editor.dfy`, module `CategoryEditor`). Categories and the form
  are JavaScript objects, modelled as `map<string, JsValue>`. This makes `{ ...cat, ...form }`
  the map union `cat + form`. The module covers:
  - the edit-mode load with its defaults (`LoadedForm`);
  - the save as a merge into matching entries or an append;
  - the field edit with the automatic slug while creating.
  The class `Editor` holds the form, the store's categories and the `saving` flag.

`wrappers.dfy` defines `Option`, which stands for JavaScript's `undefined`.

Some things are parameters of the model:
- the HTTP call of `loadArticles` is a parameter `server: Query -> Reply<A>`;
- `generateSlug` (from a helpers module that is not part of this model) is a parameter
  `JsValue -> string` that the model never interprets.

Three choices depart from the code's surface:
- The articles store (`store/useStore`) is not part of this model. The Previous/Next handlers
  pass only `{ page }` to `setPagination`. The model assumes the store merges that update into
  the stored pagination, so that `limit` and the totals are kept. Under the same assumption a
  response's full pagination object replaces the stored one.
- The class predicate `AccordionRoot.IsItemOpen` uses the open test as written. The flip
  properties of `HandleValueChange` are stated for values that test reads the way the toggle
  does; the corrected test `IsOpen` carries them for every value.
- The generic data table (`src/components/ui/data-table.jsx`) hands filtering, sorting,
  pagination and selection to `@tanstack/react-table`. That library is not part of this model,
  so no table pipeline is modelled.

## Model

| member | source | states |
|---|---|---|
| `Accordion.InitialValue` | src/components/ui/accordion.jsx:7 | definition: a truthy `defaultValue`, else `[]` in multiple mode and `null` in single mode |
| `Accordion.Toggle` | src/components/ui/accordion.jsx:13-23 | definition: the new value of `handleValueChange`; multiple mode reads a non-array as `[]`, removes every occurrence of a present id or appends an absent one; single mode gives `null` for the current item and the item otherwise |
| `Accordion.IsOpenAsWritten` | src/components/ui/accordion.jsx:57 | definition: the open test as the trigger and the content write it, including the substring test of `includes` on a string value |
| `Accordion.IsOpen` | src/components/ui/accordion.jsx:78 | definition: the corrected open test, reading the value as the toggle does (a non-array opens nothing in multiple mode) |
| `Accordion.Without` | src/components/ui/accordion.jsx:17 | the filtered list never holds the removed id, is no longer than the input, and keeps the exact count of every other id |
| `Accordion.WithoutConcat` | src/components/ui/accordion.jsx:17 | removal distributes over concatenation, so the remaining ids keep their relative order |
| `Accordion.WithoutAbsent` | src/components/ui/accordion.jsx:17 | filtering out an id that does not occur returns the list unchanged |
| `Accordion.InitialOpenItems` | src/components/ui/accordion.jsx:7 | an item starts open exactly when a truthy `defaultValue` opens it; a falsy or missing default opens nothing, in either mode |
| `Accordion.ToggleTwiceRestores` | src/components/ui/accordion.jsx:16-20 | multiple mode, absent item: the first toggle adds exactly one occurrence of it and keeps every other id's count; toggling it twice returns exactly the original list |
| `Accordion.TogglePresentRemoves` | src/components/ui/accordion.jsx:16-17 | multiple mode, present item: the new list holds no occurrence of it and the same count of every other id |
| `Accordion.ToggleFlipsOnlyTarget` | src/components/ui/accordion.jsx:12-20 | multiple mode: after a toggle the toggled item is open iff it was closed before, and every other item keeps its open status |
| `Accordion.ToggleKeepsNoDuplicates` | src/components/ui/accordion.jsx:15-20 | multiple mode: a duplicate-free list stays duplicate-free after any toggle, and the result is always an array |
| `Accordion.WithoutNoDuplicates` | src/components/ui/accordion.jsx:17 | filtering a duplicate-free list gives a duplicate-free list |
| `Accordion.SingleToggle` | src/components/ui/accordion.jsx:22 | single mode: the new value is `null` if the item was current, else the item; the item is open afterwards iff it was closed, and every other item is closed |
| `Accordion.SingleAtMostOneOpen` | src/components/ui/accordion.jsx:57 | single mode: two open items are the same item |
| `Accordion.SingleToggleOpenClosesAll` | src/components/ui/accordion.jsx:22 | single mode: toggling the open item leaves no item open |
| `Accordion.IsOpenAsWrittenAgrees` | src/components/ui/accordion.jsx:78 | the open test as written agrees with `IsOpen` on every value except a non-empty string in multiple mode |
| `Accordion.StringValueStaysOpenAfterToggle` | src/components/ui/accordion.jsx:57 | with `type="multiple"` and `defaultValue="a"`, item "a" is shown open both before and after a click on it |
| `Accordion.AccordionRoot.constructor` | src/components/ui/accordion.jsx:6-7 | the internal value starts as `InitialValue(mode, defaultValue)` and no callback has fired |
| `Accordion.AccordionRoot.HandleValueChange` | src/components/ui/accordion.jsx:12-31 | uncontrolled: stores the toggled value; controlled: internal state is never written and the shown value stays the `value` prop; the callback, when supplied, is called exactly once with the toggled value, the same value uncontrolled state stores; uncontrolled, on a value the as-written test reads like the toggle, the clicked item's shown state flips and, in multiple mode, every other item's is unchanged |
| `Accordion.AccordionRoot.IsItemOpen` | src/components/ui/accordion.jsx:78 | definition: an item is shown open by the as-written test on the current value |
| `ArticlesList.Choice` | src/pages/articles/ArticlesList.jsx:52-55 | definition: `f !== 'all' ? f : undefined` |
| `ArticlesList.NonEmpty` | src/pages/articles/ArticlesList.jsx:56 | definition: `search \|\| undefined` on a string |
| `ArticlesList.BuildQuery` | src/pages/articles/ArticlesList.jsx:49-57 | `page` and `limit` pass unchanged; each of `type`, `category`, `author`, `status` is absent iff missing or `'all'` and verbatim otherwise; `search` is absent iff missing or empty and verbatim otherwise |
| `ArticlesList.BuildQueryIsNormal` | src/pages/articles/ArticlesList.jsx:52-56 | a query never carries `'all'` or an empty search, so rebuilding a query from its own values gives it back |
| `ArticlesList.SameQueryIffEquivalent` | src/pages/articles/ArticlesList.jsx:52-56 | two filter states send the same query iff they differ only in writing "no filter" as `'all'` or missing and "no search" as empty or missing |
| `ArticlesList.RangeStart` | src/pages/articles/ArticlesList.jsx:360 | definition: `(page - 1) * limit + 1` |
| `ArticlesList.RangeEnd` | src/pages/articles/ArticlesList.jsx:361 | definition: `Math.min(page * limit, total)` |
| `ArticlesList.RangeEndWithinTotal` | src/pages/articles/ArticlesList.jsx:361 | the displayed upper bound `min(page*limit, total)` never exceeds `total` or `page*limit` |
| `ArticlesList.RangeIsWindow` | src/pages/articles/ArticlesList.jsx:360-361 | with `page >= 1`, `limit >= 1` and `(page-1)*limit < total`: `1 <= X <= Y <= total` and the window spans at most `limit` rows |
| `ArticlesList.InRangePageHasRows` | src/pages/articles/ArticlesList.jsx:357-361 | when `totalPages = ceil(total/limit)`, every page from 1 to `totalPages` holds rows and so shows a non-empty window |
| `ArticlesList.BarShown` | src/pages/articles/ArticlesList.jsx:357 | definition: the pagination bar is rendered only when `totalPages > 1` |
| `ArticlesList.Disabled` | src/pages/articles/ArticlesList.jsx:368-376 | definition: Previous is disabled when `page === 1`, Next when `page === totalPages` |
| `ArticlesList.Click` | src/pages/articles/ArticlesList.jsx:365-377 | definition: an enabled click on a rendered bar sets `page` to `page - 1` or `page + 1` and keeps the rest of the pagination; any other click changes nothing |
| `ArticlesList.ClickStep` | src/pages/articles/ArticlesList.jsx:357-377 | a click changes the page by exactly -1 (Previous) or +1 (Next) when the bar is rendered (`totalPages > 1`) and the button enabled, and by nothing otherwise; limit and totals never change |
| `ArticlesList.SomeButtonEnabled` | src/pages/articles/ArticlesList.jsx:365-377 | on a rendered bar with the page in `1..totalPages`, Previous and Next are never both disabled, so some click moves the page |
| `ArticlesList.ClickKeepsRange` | src/pages/articles/ArticlesList.jsx:365-377 | one click keeps a page in `1..totalPages` inside that range |
| `ArticlesList.ClicksKeepRange` | src/pages/articles/ArticlesList.jsx:365-377 | any sequence of clicks, starting from `1 <= page <= totalPages`, keeps the page in that range |
| `ArticlesList.ArticlesPage.constructor` | src/pages/articles/ArticlesList.jsx:35-37 | the page starts from the store's contents with `loading` true |
| `ArticlesList.ArticlesPage.LoadArticles` | src/pages/articles/ArticlesList.jsx:46-68 | sends `BuildQuery` of the current filters and pagination; replaces articles and pagination only on a reply whose `success` is true, leaves both unchanged on a failed reply or a thrown error; `loading` is false afterwards on every path |
| `ArticlesList.ArticlesPage.ClickPrevious` | src/pages/articles/ArticlesList.jsx:365-371 | the click takes effect iff Previous is rendered and enabled, and the new pagination is `Click(old, Previous)` |
| `ArticlesList.ArticlesPage.ClickNext` | src/pages/articles/ArticlesList.jsx:373-379 | the click takes effect iff Next is rendered and enabled, and the new pagination is `Click(old, Next)` |
| `CategoryEditor.InitialForm` | src/pages/categories/CategoryEditor.jsx:18-33 | definition: the fourteen properties the form mounts with |
| `CategoryEditor.IsEditMode` | src/pages/categories/CategoryEditor.jsx:15 | definition: `!!slug` for the route's `slug` parameter |
| `CategoryEditor.Find` | src/pages/categories/CategoryEditor.jsx:37 | the result is the index of the first category whose `slug` equals the route slug, or none when no category has it |
| `CategoryEditor.FindIsFirst` | src/pages/categories/CategoryEditor.jsx:37 | any index that is a match with no match before it is what `Find` returns |
| `CategoryEditor.LoadedForm` | src/pages/categories/CategoryEditor.jsx:39-54 | the form has exactly the fourteen properties; `slug`, `label`, `shortDescription`, `isOnline` are copied verbatim; falsy optional text fields become `''`, `numEntriesPerPage` becomes 12, `isFavorite` false and `sortOrder` 0 |
| `CategoryEditor.FormAfterLoad` | src/pages/categories/CategoryEditor.jsx:36-56 | definition: in edit mode the loaded form of the first match, otherwise (create mode or no match) the form unchanged |
| `CategoryEditor.EditModeDecidesFlow` | src/pages/categories/CategoryEditor.jsx:15 | the route decides the flow: edit mode iff a save keeps the list's length; on the create route the load never touches the form and a save adds one entry |
| `CategoryEditor.LoadWithoutMatchKeepsForm` | src/pages/categories/CategoryEditor.jsx:36-38 | an edit load with no category matching the slug leaves the form unchanged |
| `CategoryEditor.LoadWithMatchFillsForm` | src/pages/categories/CategoryEditor.jsx:36-55 | an edit load fills the form from the first match, whose slug the form then carries |
| `CategoryEditor.NormalisedIffFixedPoint` | src/pages/categories/CategoryEditor.jsx:39-54 | a form is normalised (fourteen properties, each defaulted one truthy or its default) exactly when an edit load of it returns it unchanged |
| `CategoryEditor.LoadedFormIsNormalised` | src/pages/categories/CategoryEditor.jsx:39-54 | every loaded form is normalised, so the load is idempotent |
| `CategoryEditor.InitialFormIsNormalised` | src/pages/categories/CategoryEditor.jsx:18-33 | the form the page mounts with is normalised |
| `CategoryEditor.MergeMatching` | src/pages/categories/CategoryEditor.jsx:65-67 | same length and order; each entry with the route slug becomes that entry merged with the form, form properties overriding; every other entry is unchanged |
| `CategoryEditor.MergedEntryReadsForm` | src/pages/categories/CategoryEditor.jsx:66 | a merged entry reads every form property from the form |
| `CategoryEditor.MergeKeepsFind` | src/pages/categories/CategoryEditor.jsx:65-67 | when the form carries the route slug, merging does not change which entry the lookup finds |
| `CategoryEditor.SavedCategories` | src/pages/categories/CategoryEditor.jsx:63-73 | definition: in edit mode `MergeMatching` with the route slug, otherwise the list with the form appended |
| `CategoryEditor.SaveThenLoadKeepsForm` | src/pages/categories/CategoryEditor.jsx:63-68 | saving a normalised form in edit mode and loading again gives the same form back |
| `CategoryEditor.SaveCreateAppends` | src/pages/categories/CategoryEditor.jsx:69-72 | create mode: the old list, unchanged and in order, with one copy of the form appended at the end |
| `CategoryEditor.CreateThenFindsNew` | src/pages/categories/CategoryEditor.jsx:69-72 | after creating under a slug no entry had, a lookup of that slug finds the new last entry |
| `CategoryEditor.Changed` | src/pages/categories/CategoryEditor.jsx:83-88 | `field` is set to `v` and every property other than `field` and `slug` is unchanged; in create mode a `label` change sets `slug` to `generateSlug(v)`; otherwise the slug is unchanged unless it is the edited field |
| `CategoryEditor.EditLabelKeepsSlug` | src/pages/categories/CategoryEditor.jsx:85-87 | in edit mode a label change never alters `slug` |
| `CategoryEditor.ChangeKeepsNormalised` | src/pages/categories/CategoryEditor.jsx:84 | an edit whose value fits its property (`FitsField`) keeps a form normalised |
| `CategoryEditor.InputValuesFit` | src/pages/categories/CategoryEditor.jsx:109-154 | every string a text input or text area gives fits its property, and so does every boolean a switch gives; with `ChangeKeepsNormalised`, the page's own edits keep the form normalised |
| `CategoryEditor.Editor.constructor` | src/pages/categories/CategoryEditor.jsx:13-33 | the editor starts with the initial form, the store's categories and `saving` false |
| `CategoryEditor.Editor.LoadForEdit` | src/pages/categories/CategoryEditor.jsx:35-57 | the new form is `FormAfterLoad` of the categories, the route and the old form |
| `CategoryEditor.Editor.Save` | src/pages/categories/CategoryEditor.jsx:59-81 | the categories become `SavedCategories` of the old list, the route and the form (same length in edit mode, one longer in create mode); `saving` is false afterwards |
| `CategoryEditor.Editor.Change` | src/pages/categories/CategoryEditor.jsx:83-88 | the new form is `Changed` of the old form, and the edited field holds the new value |

## Left out

- Rendering, styling and routing are not modelled: the markup, Bulma classes, `navigate`, `confirm` and `alert`.
- Effect scheduling is not modelled. React decides when an effect re-runs (on filter, page or category changes) and batches state updates. `LoadArticles` and `LoadForEdit` each model one run of an effect body.
- `ArticlesList.ArticlesPage.LoadArticles`: the request is atomic. `loading` is true only while the request is in flight, so only its final value is stated.
- `CategoryEditor.Editor.Save`: the `catch` branch, which only raises an alert, is not modelled. No step of the modelled body can throw, and the `navigate` call that could is left out.
- `Accordion.AccordionRoot`: the `value` prop is fixed for the object's lifetime. A parent re-rendering with a new controlled value is not modelled.
- Accordion item ids are assumed non-empty. The `useId` fallback for a falsy item value is React runtime behaviour.
- `handleSearch` is not modelled. It sets a timer whose cancel function is never used, so it is not a real debounce.
- The filter selects (`setFilters` on change) are not modelled. The articles store that merges those updates is not part of this model.
- The effect at src/pages/articles/ArticlesList.jsx:44 is not modelled. Its dependency list reads `loadArticles`, `loadAuthors` and `loadCategories` before their `const` declarations at lines 46, 70 and 81. Under `const` rules that read throws on the first render, so the modelled `LoadArticles` describes the handler as written, not a run the page reaches.
- `loadCategories`, `loadAuthors` and the delete and toggle handlers of the article list are not modelled. They are network calls followed by a reload. `loadAuthors` also calls an undefined `setAuthors`.
- JavaScript numbers are modelled as integers. NaN, fractions, and objects or arrays stored as category properties are not modelled, and neither is property enumeration order.
- The data table, the HTTP client and the other UI primitives (dialogs, forms, avatar, settings and Pinterest pages) are not modelled. They delegate to libraries or perform browser and network I/O.

## Findings

| source | as written | input that shows it | evidently intended | confidence | as-written member | corrected member |
|---|---|---|---|---|---|---|
| src/components/ui/accordion.jsx:57 | In multiple mode the trigger and content test `value.includes(id)`. On a string value this is a substring test. `handleValueChange` treats any non-array value as the empty list (line 15). | `type="multiple"`, `defaultValue="a"`, then a click on item "a": the item is shown open before and after the click. | An item is shown open exactly when the list the toggle works on holds it, so each click flips it. | low (needs a non-array value in multiple mode); not executed | `Accordion.StringValueStaysOpenAfterToggle` | `Accordion.ToggleFlipsOnlyTarget` |
