/** src/store/slices/recipeSlice.ts: saved recipes, the recipe on screen, the raw input text
    and a processing flag. */
module RecipeSlice {
  import opened Wrappers
  import opened DbTypes
  import KeyedList

  class Slice {
    var recipes: seq<Recipe>
    var currentRecipe: Option<Recipe>
    var rawInput: Option<string>
    var isProcessing: bool

    constructor()
      ensures recipes == [] && currentRecipe == None && rawInput == None && !isProcessing
    {
      recipes, currentRecipe, rawInput, isProcessing := [], None, None, false;
    }

    method SetRecipes(newRecipes: seq<Recipe>)
      modifies this
      ensures recipes == newRecipes
      ensures currentRecipe == old(currentRecipe) && rawInput == old(rawInput)
      ensures isProcessing == old(isProcessing)
    {
      recipes := newRecipes;
    }

    method AddRecipe(recipe: Recipe)
      modifies this
      ensures recipes == old(recipes) + [recipe]
      ensures currentRecipe == old(currentRecipe) && rawInput == old(rawInput)
      ensures isProcessing == old(isProcessing)
    {
      recipes := recipes + [recipe];
    }

    method UpdateRecipe(id: string, updates: RecipeUpdate)
      modifies this
      ensures recipes == KeyedList.UpdateWhere(old(recipes), RecipeKey, id, MergeRecipe, updates)
      ensures currentRecipe == old(currentRecipe) && rawInput == old(rawInput)
      ensures isProcessing == old(isProcessing)
    {
      recipes := KeyedList.UpdateWhere(recipes, RecipeKey, id, MergeRecipe, updates);
    }

    /** Drops the recipes with the id and leaves `currentRecipe` as it was. */
    method RemoveRecipe(id: string)
      modifies this
      ensures recipes == KeyedList.RemoveWhere(old(recipes), RecipeKey, id)
      ensures currentRecipe == old(currentRecipe) && rawInput == old(rawInput)
      ensures isProcessing == old(isProcessing)
    {
      recipes := KeyedList.RemoveWhere(recipes, RecipeKey, id);
    }

    method SetCurrentRecipe(recipe: Option<Recipe>)
      modifies this
      ensures currentRecipe == recipe
      ensures recipes == old(recipes) && rawInput == old(rawInput) && isProcessing == old(isProcessing)
    {
      currentRecipe := recipe;
    }

    /** Stores a plain string or null; nothing else changes. */
    method SetRawInput(input: Option<string>)
      modifies this
      ensures rawInput == input
      ensures recipes == old(recipes) && currentRecipe == old(currentRecipe)
      ensures isProcessing == old(isProcessing)
    {
      rawInput := input;
    }

    method SetProcessing(processing: bool)
      modifies this
      ensures isProcessing == processing
      ensures recipes == old(recipes) && currentRecipe == old(currentRecipe) && rawInput == old(rawInput)
    {
      isProcessing := processing;
    }
  }
}
