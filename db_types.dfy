/**
 * The records of src/types/global.d.ts (namespace DB) and src/types/recipe.ts that the
 * stores hold, with the `Partial<...>` updates the stores merge into them.
 *
 * A merge `{ ...item, ...updates }` takes every key present in `updates`. A required field's
 * update is `Option<T>` (None: key absent). An optional field's update is `Option<Option<T>>`:
 * None means the key is absent, Some(None) means it is present and undefined.
 */
module DbTypes {
  import opened Wrappers
  import opened Constants

  // ---- profiles ----

  datatype Diet = Vegan | Vegetarian | GlutenFree | DairyFree | NutFree
  datatype UnitSystem = Metric | Imperial

  datatype UserPreferences = UserPreferences(
    dietary: Option<seq<Diet>>,
    units: Option<UnitSystem>,
    defaultServings: Option<int>)

  datatype Profile = Profile(
    id: string,
    email: string,
    tier: Tier,
    monthlyRecipeCount: int,
    lastActiveAt: string,
    preferences: UserPreferences,
    createdAt: string)

  // ---- pantry ----

  datatype PantryItem = PantryItem(
    id: string,
    name: string,
    quantity: Option<int>,
    unit: Option<string>,
    category: Option<string>,
    expiresAt: Option<string>,
    addedAt: string)

  datatype PantryUpdate = PantryUpdate(
    id: Option<string>,
    name: Option<string>,
    quantity: Option<Option<int>>,
    unit: Option<Option<string>>,
    category: Option<Option<string>>,
    expiresAt: Option<Option<string>>,
    addedAt: Option<string>)

  function PantryKey(item: PantryItem): string { item.id }

  function MergePantry(item: PantryItem, u: PantryUpdate): PantryItem {
    PantryItem(GetOr(u.id, item.id), GetOr(u.name, item.name), GetOr(u.quantity, item.quantity),
               GetOr(u.unit, item.unit), GetOr(u.category, item.category),
               GetOr(u.expiresAt, item.expiresAt), GetOr(u.addedAt, item.addedAt))
  }

  // ---- grocery ----

  datatype GroceryItem = GroceryItem(
    id: string,
    name: string,
    quantity: int,
    unit: string,
    category: string,
    checked: bool,
    recipeId: Option<string>)

  datatype GroceryUpdate = GroceryUpdate(
    id: Option<string>,
    name: Option<string>,
    quantity: Option<int>,
    unit: Option<string>,
    category: Option<string>,
    checked: Option<bool>,
    recipeId: Option<Option<string>>)

  function GroceryKey(item: GroceryItem): string { item.id }

  function MergeGrocery(item: GroceryItem, u: GroceryUpdate): GroceryItem {
    GroceryItem(GetOr(u.id, item.id), GetOr(u.name, item.name), GetOr(u.quantity, item.quantity),
                GetOr(u.unit, item.unit), GetOr(u.category, item.category),
                GetOr(u.checked, item.checked), GetOr(u.recipeId, item.recipeId))
  }

  /** `{ ...item, checked: !item.checked }`; the toggle carries no data, hence the unit argument. */
  function FlipChecked(item: GroceryItem, toggle: ()): GroceryItem {
    item.(checked := !item.checked)
  }

  // ---- plans ----

  datatype Plan = Plan(
    id: string,
    userId: string,
    name: Option<string>,
    recipeIds: seq<string>,
    createdAt: string)

  datatype PlanUpdate = PlanUpdate(
    id: Option<string>,
    userId: Option<string>,
    name: Option<Option<string>>,
    recipeIds: Option<seq<string>>,
    createdAt: Option<string>)

  function PlanKey(plan: Plan): string { plan.id }

  function MergePlan(plan: Plan, u: PlanUpdate): Plan {
    Plan(GetOr(u.id, plan.id), GetOr(u.userId, plan.userId), GetOr(u.name, plan.name),
         GetOr(u.recipeIds, plan.recipeIds), GetOr(u.createdAt, plan.createdAt))
  }

  // ---- recipes ----

  datatype Ingredient = Ingredient(item: string, quantity: int, unit: string, notes: Option<string>)

  datatype Step = Step(order: int, instruction: string, duration: Option<int>, timerRequired: Option<bool>)

  datatype RecipeData = RecipeData(
    ingredients: seq<Ingredient>,
    steps: seq<Step>,
    description: Option<string>,
    servings: Option<int>,
    prepTime: Option<int>,
    cookTime: Option<int>,
    sourceUrl: Option<string>,
    imageUrl: Option<string>)

  /** `normalized_ingredients` is an untyped object in the source; it is carried as its JSON text. */
  datatype Recipe = Recipe(
    id: string,
    userId: string,
    title: Option<string>,
    jsonData: RecipeData,
    tags: seq<string>,
    rating: int,
    notes: Option<string>,
    completedAt: Option<string>,
    createdAt: string,
    normalizedIngredients: Option<string>,
    searchVector: Option<string>)

  datatype RecipeUpdate = RecipeUpdate(
    id: Option<string>,
    userId: Option<string>,
    title: Option<Option<string>>,
    jsonData: Option<RecipeData>,
    tags: Option<seq<string>>,
    rating: Option<int>,
    notes: Option<Option<string>>,
    completedAt: Option<Option<string>>,
    createdAt: Option<string>,
    normalizedIngredients: Option<Option<string>>,
    searchVector: Option<Option<string>>)

  function RecipeKey(recipe: Recipe): string { recipe.id }

  function MergeRecipe(r: Recipe, u: RecipeUpdate): Recipe {
    Recipe(GetOr(u.id, r.id), GetOr(u.userId, r.userId), GetOr(u.title, r.title),
           GetOr(u.jsonData, r.jsonData), GetOr(u.tags, r.tags), GetOr(u.rating, r.rating),
           GetOr(u.notes, r.notes), GetOr(u.completedAt, r.completedAt),
           GetOr(u.createdAt, r.createdAt), GetOr(u.normalizedIngredients, r.normalizedIngredients),
           GetOr(u.searchVector, r.searchVector))
  }

  // ---- staged recipe input (src/types/recipe.ts) ----

  datatype RawInput =
    | TextInput(content: string)
    | UrlInput(content: string)
    | ImageInput(uri: string, mimeType: Option<string>)

  /** A merge keeps the key unless the update sets `id`. */
  lemma MergeKeepsKeys(p: PantryItem, pu: PantryUpdate, g: GroceryItem, gu: GroceryUpdate,
                       pl: Plan, plu: PlanUpdate, r: Recipe, ru: RecipeUpdate)
    ensures pu.id.None? ==> PantryKey(MergePantry(p, pu)) == PantryKey(p)
    ensures gu.id.None? ==> GroceryKey(MergeGrocery(g, gu)) == GroceryKey(g)
    ensures plu.id.None? ==> PlanKey(MergePlan(pl, plu)) == PlanKey(pl)
    ensures ru.id.None? ==> RecipeKey(MergeRecipe(r, ru)) == RecipeKey(r)
  {
  }
}
