/** The app component's state and its handlers. The component holds the
    current view, the selected recipe and the three stored collections; each
    handler overwrites some of these fields, computing a new collection with a
    function of module Store where it changes one. */
module App {
  import opened Types
  import Store

  /** What the main area shows for a given view and selection. A detail view
      without a selected recipe renders nothing. */
  datatype Screen =
    | ListScreen
    | DetailScreen(recipe: Recipe)
    | FormScreen(initial: Option<Recipe>)
    | MaterialsScreen
    | NothingShown

  function ScreenOf(view: View, selected: Option<Recipe>): (s: Screen)
    ensures s == NothingShown <==> view == RecipeDetail && selected.None?
    ensures s.DetailScreen? <==> view == RecipeDetail && selected.Some?
    ensures s.DetailScreen? ==> selected == Some(s.recipe)
    ensures s.FormScreen? <==> view == RecipeForm
    ensures s.FormScreen? ==> s.initial == selected
    ensures s == ListScreen <==> view == RecipeList
    ensures s == MaterialsScreen <==> view == RawMaterials
  {
    match view
    case RecipeList => ListScreen
    case RecipeDetail => if selected.Some? then DetailScreen(selected.value) else NothingShown
    case RecipeForm => FormScreen(selected)
    case RawMaterials => MaterialsScreen
  }

  class RecipeApp {
    var view: View
    var selected: Option<Recipe>
    var recipes: seq<Recipe>
    var rawMaterials: seq<RawMaterial>
    var families: seq<RecipeFamily>

    /** The store's integrity: ids are unique within each collection and every
        recipe's family reference names an existing family. */
    predicate StoreConsistent()
      reads this
    {
      && Store.Distinct(Store.RecipeIds(recipes))
      && Store.Distinct(Store.FamilyIds(families))
      && Store.FamilyRefsResolve(recipes, families)
    }

    /** The detail view always has a recipe to show. */
    predicate DetailHasRecipe()
      reads this
    {
      view == RecipeDetail ==> selected.Some?
    }

    /** Starts on the recipe list with nothing selected; the collections are
        the ones loaded from storage (or their defaults). */
    constructor (storedRecipes: seq<Recipe>, storedMaterials: seq<RawMaterial>, storedFamilies: seq<RecipeFamily>)
      ensures view == RecipeList && selected == None
      ensures recipes == storedRecipes && rawMaterials == storedMaterials && families == storedFamilies
      ensures DetailHasRecipe()
      ensures ScreenOf(view, selected) == ListScreen
    {
      view := RecipeList;
      selected := None;
      recipes := storedRecipes;
      rawMaterials := storedMaterials;
      families := storedFamilies;
    }

    /** Opens a recipe's detail page. */
    method SelectRecipe(recipe: Recipe)
      modifies this`selected, this`view
      ensures selected == Some(recipe) && view == RecipeDetail
      ensures DetailHasRecipe()
      ensures ScreenOf(view, selected) == DetailScreen(recipe)
    {
      selected := Some(recipe);
      view := RecipeDetail;
    }

    /** Opens an empty recipe form. */
    method NewRecipe()
      modifies this`selected, this`view
      ensures selected == None && view == RecipeForm
      ensures DetailHasRecipe()
      ensures ScreenOf(view, selected) == FormScreen(None)
    {
      selected := None;
      view := RecipeForm;
    }

    /** Opens the form filled with an existing recipe. */
    method EditRecipe(recipe: Recipe)
      modifies this`selected, this`view
      ensures selected == Some(recipe) && view == RecipeForm
      ensures DetailHasRecipe()
      ensures ScreenOf(view, selected) == FormScreen(Some(recipe))
    {
      selected := Some(recipe);
      view := RecipeForm;
    }

    /** Switches view without touching the selection: the back and cancel
        buttons and the bottom navigation bar. */
    method ShowView(target: View)
      modifies this`view
      ensures view == target
      ensures selected == old(selected)
      ensures DetailHasRecipe() <==> target != RecipeDetail || selected.Some?
    {
      view := target;
    }

    /** Stores the recipe from the form (replacing the one with its id, or
        appending it) and returns to the list with nothing selected. */
    method SaveRecipe(recipe: Recipe)
      modifies this`recipes, this`view, this`selected
      ensures recipes == Store.UpsertRecipe(old(recipes), recipe)
      ensures view == RecipeList && selected == None
      ensures DetailHasRecipe()
      ensures Store.Distinct(Store.RecipeIds(old(recipes))) ==> Store.Distinct(Store.RecipeIds(recipes))
      ensures Store.FamilyRefsResolve(old(recipes), families) ==>
                (Store.FamilyRefsResolve(recipes, families) <==> Store.FamilyResolves(recipe, families))
      ensures old(StoreConsistent()) && Store.FamilyResolves(recipe, families) ==> StoreConsistent()
    {
      var known := Store.HasRecipe(recipes, recipe.id);
      if known {
        recipes := Store.ReplaceRecipe(recipes, recipe);
      } else {
        recipes := recipes + [recipe];
      }
      assert recipes == Store.UpsertRecipe(old(recipes), recipe);
      if Store.Distinct(Store.RecipeIds(old(recipes))) {
        Store.UpsertPreservesDistinct(old(recipes), recipe);
      }
      if Store.FamilyRefsResolve(old(recipes), families) {
        Store.UpsertKeepsRefs(old(recipes), families, recipe);
      }
      view := RecipeList;
      selected := None;
    }

    /** Appends a family named `name` under the fresh id `id` and returns it. */
    method AddFamily(name: string, id: string) returns (family: RecipeFamily)
      requires id !in Store.FamilyIds(families)
      modifies this`families
      ensures family == RecipeFamily(id, name)
      ensures families == old(families) + [family]
      ensures Store.FamilyIds(families) == Store.FamilyIds(old(families)) + [id]
      ensures old(StoreConsistent()) ==> StoreConsistent()
    {
      family := RecipeFamily(id, name);
      Store.AppendFreshFamily(recipes, families, family);
      families := families + [family];
    }

    /** Renames the family with `id`. */
    method UpdateFamily(id: string, name: string)
      modifies this`families
      ensures families == Store.RenameFamily(old(families), id, name)
      ensures Store.FamilyIds(families) == Store.FamilyIds(old(families))
      ensures old(StoreConsistent()) ==> StoreConsistent()
    {
      families := Store.RenameFamily(families, id, name);
    }

    /** Deletes the family with `id` and unassigns every recipe in it. */
    method DeleteFamily(id: string)
      modifies this`families, this`recipes
      ensures families == Store.RemoveFamily(old(families), id)
      ensures recipes == Store.ClearFamilyRefs(old(recipes), id)
      ensures id !in Store.FamilyIds(families)
      ensures forall i :: 0 <= i < |recipes| ==> recipes[i].familyId != Some(id)
      ensures old(StoreConsistent()) ==> StoreConsistent()
    {
      if StoreConsistent() {
        Store.RemovePreservesDistinct(families, id);
        Store.DeleteFamilyKeepsRefs(recipes, families, id);
      }
      families := Store.RemoveFamily(families, id);
      recipes := Store.ClearFamilyRefs(recipes, id);
    }
  }
}
