/** src/store/recipeStore.ts: the one staged recipe input. */
module RecipeStore {
  import opened Wrappers
  import opened DbTypes

  class Store {
    var rawInput: Option<RawInput>
    var loading: bool
    var error: Option<string>

    constructor()
      ensures rawInput == None && !loading && error == None
    {
      rawInput, loading, error := None, false, None;
    }

    /** Stages `input`, replacing what was staged, and clears the error. */
    method SetRawInput(input: RawInput)
      modifies this
      ensures rawInput == Some(input) && error == None && loading == old(loading)
    {
      rawInput, error := Some(input), None;
    }

    /** Discards the staged input and the error. The new state does not depend on what was
        staged, so on a cleared store a second call changes nothing. */
    method ClearInput()
      modifies this
      ensures rawInput == None && error == None && loading == old(loading)
      ensures old(rawInput) == None && old(error) == None ==> unchanged(this)
    {
      rawInput, error := None, None;
    }
  }
}
