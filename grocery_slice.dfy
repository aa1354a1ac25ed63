/** src/store/slices/grocerySlice.ts: the grocery list and a loading flag. */
module GrocerySlice {
  import opened DbTypes
  import KeyedList

  class Slice {
    var items: seq<GroceryItem>
    var isLoading: bool

    constructor()
      ensures items == [] && !isLoading
    {
      items, isLoading := [], false;
    }

    method SetItems(newItems: seq<GroceryItem>)
      modifies this
      ensures items == newItems && isLoading == old(isLoading)
    {
      items := newItems;
    }

    /** Appends at the end, whatever its id. */
    method AddItem(item: GroceryItem)
      modifies this
      ensures items == old(items) + [item] && isLoading == old(isLoading)
    {
      items := items + [item];
    }

    /** Negates `checked` on every item with the id. */
    method ToggleItem(id: string)
      modifies this
      ensures items == KeyedList.UpdateWhere(old(items), GroceryKey, id, FlipChecked, ())
      ensures isLoading == old(isLoading)
    {
      items := KeyedList.UpdateWhere(items, GroceryKey, id, FlipChecked, ());
    }

    /** Drops every item with the id; the rest keep their order. */
    method RemoveItem(id: string)
      modifies this
      ensures items == KeyedList.RemoveWhere(old(items), GroceryKey, id)
      ensures isLoading == old(isLoading)
    {
      items := KeyedList.RemoveWhere(items, GroceryKey, id);
    }

    /** Merges the update into every item with the id. */
    method UpdateItem(id: string, updates: GroceryUpdate)
      modifies this
      ensures items == KeyedList.UpdateWhere(old(items), GroceryKey, id, MergeGrocery, updates)
      ensures isLoading == old(isLoading)
    {
      items := KeyedList.UpdateWhere(items, GroceryKey, id, MergeGrocery, updates);
    }

    method ClearList()
      modifies this
      ensures items == [] && isLoading == old(isLoading)
    {
      items := [];
    }

    method SetLoading(loading: bool)
      modifies this
      ensures isLoading == loading && items == old(items)
    {
      isLoading := loading;
    }
  }

  /** Toggling an id touches only the `checked` field of the items with that id, and
      toggling it twice gives back the list. */
  lemma ToggleOnlyFlipsChecked(items: seq<GroceryItem>, id: string)
    ensures var r := KeyedList.UpdateWhere(items, GroceryKey, id, FlipChecked, ());
            forall i :: 0 <= i < |items| ==>
              r[i].checked == (if items[i].id == id then !items[i].checked else items[i].checked) &&
              r[i].(checked := items[i].checked) == items[i]
    ensures KeyedList.UpdateWhere(KeyedList.UpdateWhere(items, GroceryKey, id, FlipChecked, ()),
                                  GroceryKey, id, FlipChecked, ()) == items
  {
    KeyedList.UpdateTwiceRestores(items, GroceryKey, id, FlipChecked, ());
  }
}
