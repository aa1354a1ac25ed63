/** src/store/slices/pantrySlice.ts: the pantry items and a loading flag. */
module PantrySlice {
  import opened DbTypes
  import KeyedList

  class Slice {
    var items: seq<PantryItem>
    var isLoading: bool

    constructor()
      ensures items == [] && !isLoading
    {
      items, isLoading := [], false;
    }

    method SetItems(newItems: seq<PantryItem>)
      modifies this
      ensures items == newItems && isLoading == old(isLoading)
    {
      items := newItems;
    }

    /** Appends at the end, whatever its id. */
    method AddItem(item: PantryItem)
      modifies this
      ensures items == old(items) + [item] && isLoading == old(isLoading)
    {
      items := items + [item];
    }

    /** Drops every item with the id; the rest keep their order. */
    method RemoveItem(id: string)
      modifies this
      ensures items == KeyedList.RemoveWhere(old(items), PantryKey, id)
      ensures isLoading == old(isLoading)
    {
      items := KeyedList.RemoveWhere(items, PantryKey, id);
    }

    /** Merges the update into every item with the id. */
    method UpdateItem(id: string, updates: PantryUpdate)
      modifies this
      ensures items == KeyedList.UpdateWhere(old(items), PantryKey, id, MergePantry, updates)
      ensures isLoading == old(isLoading)
    {
      items := KeyedList.UpdateWhere(items, PantryKey, id, MergePantry, updates);
    }

    method SetLoading(loading: bool)
      modifies this
      ensures isLoading == loading && items == old(items)
    {
      isLoading := loading;
    }

    method ClearPantry()
      modifies this
      ensures items == [] && isLoading == old(isLoading)
    {
      items := [];
    }
  }
}
