# Recipe app: domain store and view state machine

This project models the state kept by the recipe app's top-level component
(`App.tsx`) and the data types it works on (`types.ts`).

The state is the current view, the selected recipe and three stored
collections: recipes, raw materials and recipe families. The handlers of the
component are modelled:

- saving a recipe replaces the entry with the same id, or appends the recipe
  when its id is new;
- adding, renaming and deleting a family;
- deleting a family also clears the `familyId` of every recipe in it, which
  is the one integrity rule in the code;
- the navigation handlers select, create and edit a recipe, and switch view.

Files:

- `types.dfy` (module `Types`) has the data model. `Unit` and `View` are
  string-literal unions in the source. Each is a datatype here, with its
  literal encoding and a decoder that accepts exactly those literals.
- `store.dfy` (module `Store`) has the collection updates as pure functions
  on sequences. These are the `some`, `map`, `filter` and spread-append
  expressions of the handlers. It also has the lemmas about them: ids stay
  distinct, references stay resolvable, order is kept, an in-place replace
  touches one slot, saving is idempotent.
- `app.dfy` (module `App`) has the component as class `RecipeApp`. Its fields
  are the state variables. Each handler is a method that overwrites only the
  fields its setters write. `ScreenOf` gives what the main area renders for a
  view and selection, so the navigation contracts can say what is on screen.

The component neither deletes materials nor computes costs: it hands
`setRawMaterials` to the materials screen (App.tsx:139), and no costing
happens in it.

The numeric fields (`price`, `packageSize`, `quantity`, `yieldAmount`) are
`real`. Nothing here does arithmetic on them.

## Model

| member | source | states |
|---|---|---|
| `Types.ParseUnit` | types.ts:1 | a string decodes to a unit exactly when it is one of the five literals g, kg, ml, l, unit, and decodes to the unit with that literal |
| `Types.UnitTagRoundTrip` | types.ts:1 | every unit decodes back from its literal |
| `Types.ParseView` | types.ts:33 | a string decodes to a view exactly when it is one of the four literals RECIPE_LIST, RECIPE_DETAIL, RECIPE_FORM, RAW_MATERIALS |
| `Types.ViewTagRoundTrip` | types.ts:33 | every view decodes back from its literal |
| `Store.HasRecipe` | App.tsx:81 | the `some` test is true exactly when the id is among the recipes' ids |
| `Store.ReplaceRecipe` | App.tsx:83 | same length; every recipe with the saved id is the saved recipe; every other recipe is unchanged in its position |
| `Store.UpsertRecipe` | App.tsx:80-86 | the length is kept when the id is known and grows by one otherwise; for a new id the old list is an unchanged prefix and the recipe is last; ids keep their positions; other recipes are unchanged; every entry with the id is the saved recipe, and the saved recipe is present |
| `Store.UpsertReplacesInPlace` | App.tsx:81-83 | with distinct ids, saving a recipe whose id is at position k replaces exactly that position |
| `Store.UpsertPreservesDistinct` | App.tsx:80-86 | saving keeps recipe ids distinct |
| `Store.UpsertIdempotent` | App.tsx:80-86 | saving the same recipe twice gives the same list as saving it once |
| `Store.UpsertKeepsRefs` | App.tsx:80-86 | if all family references resolved before, they all resolve after a save exactly when the saved recipe's reference resolves |
| `Store.RenameFamily` | App.tsx:97-99 | same length, ids and order; the entries with the id get the new name; all other names are unchanged |
| `Store.RemoveFamily` | App.tsx:102 | a family is kept exactly when it was present and has another id; no family with the id remains; the list does not grow |
| `Store.RemoveFamilySingleton` | App.tsx:102 | a one-element list keeps its family exactly when that family's id differs from the deleted one; with `RemoveFamilyAppend` this determines the `filter` completely, duplicates and order included |
| `Store.RemoveFamilyAppend` | App.tsx:102 | removal distributes over concatenation, so the kept families stay in their original order |
| `Store.RemoveAbsentFamily` | App.tsx:102 | deleting an id that no family has leaves the list unchanged |
| `Store.RemoveUniqueFamily` | App.tsx:101-102 | with distinct ids, deleting the id at position k removes exactly that entry |
| `Store.RemovePreservesDistinct` | App.tsx:102 | deleting keeps family ids distinct |
| `Store.ClearFamilyRefs` | App.tsx:103 | same length and recipe ids; recipes in the family get `familyId` cleared and nothing else changes in them; other recipes are unchanged; afterwards no recipe names the id |
| `Store.DeleteFamilyKeepsRefs` | App.tsx:101-104 | if all recipes' families resolved before, they still resolve after the family is removed and its references are cleared |
| `Store.AppendFreshFamily` | App.tsx:91-94 | appending a family with a fresh id extends the id list by that id, keeps ids distinct and keeps every reference resolvable |
| `App.ScreenOf` | App.tsx:106-151 | the detail view shows the selected recipe and renders nothing without one; the form shows the selection as its initial recipe; the list view always shows the list screen and the materials view the materials screen |
| `App.RecipeApp.constructor` | App.tsx:14-18 | the app starts on the recipe list with nothing selected and the loaded collections |
| `App.RecipeApp.SelectRecipe` | App.tsx:65-68 | the recipe becomes selected and its detail screen is shown; nothing else changes |
| `App.RecipeApp.NewRecipe` | App.tsx:70-73 | the selection is cleared and an empty form is shown |
| `App.RecipeApp.EditRecipe` | App.tsx:75-78 | the recipe becomes selected and the form is shown filled with it |
| `App.RecipeApp.ShowView` | App.tsx:157 | only the view changes; the detail view still has a recipe unless the detail view is requested with nothing selected |
| `App.RecipeApp.SaveRecipe` | App.tsx:80-89 | the recipes become the upsert of the old list; the view is the list and the selection is cleared; distinct ids and resolvable references are kept as `Store` proves |
| `App.RecipeApp.AddFamily` | App.tsx:91-95 | the new family with the given name and id is appended and returned; the store stays consistent |
| `App.RecipeApp.UpdateFamily` | App.tsx:97-99 | the families are renamed in place; ids are unchanged; the store stays consistent |
| `App.RecipeApp.DeleteFamily` | App.tsx:101-104 | the family is removed and its recipes unassigned; no family and no recipe names the id afterwards; the store stays consistent |

## Left out

- Persistence through the `useLocalStorage` hook (App.tsx:16-18). The hook is not part of this model and it is browser storage I/O. The constructor takes the loaded collections as parameters, and the collections are plain fields.
- `crypto.randomUUID` (App.tsx:92) is a foreign call. `AddFamily` takes the new id as a parameter and requires it to be absent from the family ids, which stands for the freshness of a random UUID.
- The sorted copies of the collections (App.tsx:35-48). They use `Array.sort` with the locale-aware `localeCompare`, a foreign comparator, and only feed rendering.
- The install-prompt handling (App.tsx:20-33, 50-62): a browser event listener, a promise and console logging.
- Rendering: the JSX, `NavButton`, the family modal's visibility flag (App.tsx:19, 114, 153-188). Only the choice of screen in `renderView` is modelled, as `ScreenOf`, and the view switches of the back, cancel and navigation buttons, as `ShowView`.
- Raw-material editing. The component hands `setRawMaterials` to the materials screen (App.tsx:139), and that screen's code is not part of this model. The `rawMaterials` field is carried and no handler here changes it.
- Unit conversion and costing. Neither modelled file implements them. The components that do are not part of this model, so the `Unit` datatype has no conversion factors here.
- React batches the setter calls of a handler. `DeleteFamily` writes both collections in one method; the order in which the two stored keys reach storage is not modelled.
- Handlers read the collections from the render they were created in. A handler that runs with a stale copy is not modelled; every method reads the current fields.
- The navigation bar only ever asks for the recipe list or the materials view (App.tsx:184-185). `ShowView` accepts any view instead, and its contract says when the detail view would then have no recipe.
