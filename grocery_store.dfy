/** src/store/groceryStore.ts: the standalone grocery-list store. */
module GroceryStore {
  import opened DbTypes
  import KeyedList

  class Store {
    var groceryItems: seq<GroceryItem>
    var groceryLoading: bool

    constructor()
      ensures groceryItems == [] && !groceryLoading
    {
      groceryItems, groceryLoading := [], false;
    }

    method SetGroceryItems(items: seq<GroceryItem>)
      modifies this
      ensures groceryItems == items && groceryLoading == old(groceryLoading)
    {
      groceryItems := items;
    }

    method AddGroceryItem(item: GroceryItem)
      modifies this
      ensures groceryItems == old(groceryItems) + [item] && groceryLoading == old(groceryLoading)
    {
      groceryItems := groceryItems + [item];
    }

    method ToggleGroceryItem(id: string)
      modifies this
      ensures groceryItems == KeyedList.UpdateWhere(old(groceryItems), GroceryKey, id, FlipChecked, ())
      ensures groceryLoading == old(groceryLoading)
    {
      groceryItems := KeyedList.UpdateWhere(groceryItems, GroceryKey, id, FlipChecked, ());
    }

    method RemoveGroceryItem(id: string)
      modifies this
      ensures groceryItems == KeyedList.RemoveWhere(old(groceryItems), GroceryKey, id)
      ensures groceryLoading == old(groceryLoading)
    {
      groceryItems := KeyedList.RemoveWhere(groceryItems, GroceryKey, id);
    }

    method UpdateGroceryItem(id: string, updates: GroceryUpdate)
      modifies this
      ensures groceryItems == KeyedList.UpdateWhere(old(groceryItems), GroceryKey, id, MergeGrocery, updates)
      ensures groceryLoading == old(groceryLoading)
    {
      groceryItems := KeyedList.UpdateWhere(groceryItems, GroceryKey, id, MergeGrocery, updates);
    }

    method ClearGroceryList()
      modifies this
      ensures groceryItems == [] && groceryLoading == old(groceryLoading)
    {
      groceryItems := [];
    }

    method SetGroceryLoading(loading: bool)
      modifies this
      ensures groceryLoading == loading && groceryItems == old(groceryItems)
    {
      groceryLoading := loading;
    }
  }
}
