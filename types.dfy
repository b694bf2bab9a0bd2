/** The recipe app's data model: materials, ingredients, families, recipes and
    the four views of the screen. Ids and names are plain strings; the numeric
    fields (price, package size, quantity, yield) are carried as reals and
    nothing in the store does arithmetic on them. */
module Types {

  datatype Option<T> = None | Some(value: T)

  /** The five units a material is bought in or an ingredient is measured in:
      'g', 'kg', 'ml', 'l' and 'unit' (a discrete piece). */
  datatype Unit = Gram | Kilogram | Millilitre | Litre | Piece

  /** The string literal that stands for each unit in the stored data. */
  function UnitTag(u: Unit): string
  {
    match u
    case Gram => "g"
    case Kilogram => "kg"
    case Millilitre => "ml"
    case Litre => "l"
    case Piece => "unit"
  }

  /** Reads a unit back from its literal; any other string is not a unit. */
  function ParseUnit(s: string): (r: Option<Unit>)
    ensures r.Some? <==> s in ["g", "kg", "ml", "l", "unit"]
    ensures r.Some? ==> UnitTag(r.value) == s
  {
    if s == "g" then Some(Gram)
    else if s == "kg" then Some(Kilogram)
    else if s == "ml" then Some(Millilitre)
    else if s == "l" then Some(Litre)
    else if s == "unit" then Some(Piece)
    else None
  }

  lemma UnitTagRoundTrip(u: Unit)
    ensures ParseUnit(UnitTag(u)) == Some(u)
  {
  }

  /** A purchasable material: `price` buys `packageSize` of `unit`. */
  datatype RawMaterial = RawMaterial(id: string, name: string, price: real, packageSize: real, unit: Unit)

  /** One line of a recipe. It names its material by id and does not hold it,
      so an id that no longer resolves to a material is representable. */
  datatype Ingredient = Ingredient(rawMaterialId: string, quantity: real, unit: Unit)

  datatype RecipeFamily = RecipeFamily(id: string, name: string)

  /** A recipe. `familyId == None` means the recipe belongs to no family; it is
      the value a family deletion writes. Ingredients and instructions are
      ordered. */
  datatype Recipe = Recipe(
    id: string,
    name: string,
    description: string,
    familyId: Option<string>,
    yieldAmount: real,
    yieldUnit: string,
    ingredients: seq<Ingredient>,
    instructions: seq<string>)

  /** The four screens the app switches between. */
  datatype View = RecipeList | RecipeDetail | RecipeForm | RawMaterials

  function ViewTag(v: View): string
  {
    match v
    case RecipeList => "RECIPE_LIST"
    case RecipeDetail => "RECIPE_DETAIL"
    case RecipeForm => "RECIPE_FORM"
    case RawMaterials => "RAW_MATERIALS"
  }

  function ParseView(s: string): (r: Option<View>)
    ensures r.Some? <==> s in ["RECIPE_LIST", "RECIPE_DETAIL", "RECIPE_FORM", "RAW_MATERIALS"]
    ensures r.Some? ==> ViewTag(r.value) == s
  {
    if s == "RECIPE_LIST" then Some(RecipeList)
    else if s == "RECIPE_DETAIL" then Some(RecipeDetail)
    else if s == "RECIPE_FORM" then Some(RecipeForm)
    else if s == "RAW_MATERIALS" then Some(RawMaterials)
    else None
  }

  lemma ViewTagRoundTrip(v: View)
    ensures ParseView(ViewTag(v)) == Some(v)
  {
  }
}
