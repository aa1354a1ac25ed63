/** src/store/pantryStore.ts: the persisted pantry store (persistence itself is not modelled). */
module PantryStore {
  import opened DbTypes
  import KeyedList

  class Store {
    var pantryItems: seq<PantryItem>
    var pantryLoading: bool

    constructor()
      ensures pantryItems == [] && !pantryLoading
    {
      pantryItems, pantryLoading := [], false;
    }

    method SetPantryItems(items: seq<PantryItem>)
      modifies this
      ensures pantryItems == items && pantryLoading == old(pantryLoading)
    {
      pantryItems := items;
    }

    method AddPantryItem(item: PantryItem)
      modifies this
      ensures pantryItems == old(pantryItems) + [item] && pantryLoading == old(pantryLoading)
    {
      pantryItems := pantryItems + [item];
    }

    method RemovePantryItem(id: string)
      modifies this
      ensures pantryItems == KeyedList.RemoveWhere(old(pantryItems), PantryKey, id)
      ensures pantryLoading == old(pantryLoading)
    {
      pantryItems := KeyedList.RemoveWhere(pantryItems, PantryKey, id);
    }

    method UpdatePantryItem(id: string, updates: PantryUpdate)
      modifies this
      ensures pantryItems == KeyedList.UpdateWhere(old(pantryItems), PantryKey, id, MergePantry, updates)
      ensures pantryLoading == old(pantryLoading)
    {
      pantryItems := KeyedList.UpdateWhere(pantryItems, PantryKey, id, MergePantry, updates);
    }

    method SetPantryLoading(loading: bool)
      modifies this
      ensures pantryLoading == loading && pantryItems == old(pantryItems)
    {
      pantryLoading := loading;
    }

    method ClearPantry()
      modifies this
      ensures pantryItems == [] && pantryLoading == old(pantryLoading)
    {
      pantryItems := [];
    }
  }
}
