/**
 * The cart engine of the persisting page script: the cart, the add buttons'
 * disabled state, the figures the cart panel shows, and the write-through to
 * local storage after every mutation.
 */
module AppCart {
  import opened Wrappers
  import opened LineItems
  import opened Persistence

  class CartStore {
    /** The cart, in display order. */
    var items: seq<LineItem>
    /** The ids whose "add" button is disabled. */
    var disabled: set<string>
    /** The ids that have an "add" button on the page. */
    const buttons: set<string>
    /** The subtotal the cart panel shows, in cents. */
    var shownTotal: int
    /** The item count the cart header shows. */
    var shownCount: int
    /** The browser's local storage. */
    const storage: LocalStorage

    /** Only buttons that exist can be disabled. */
    ghost predicate Valid()
      reads this
    {
      disabled <= buttons
    }

    /** The panel shows the figures of the current cart. */
    ghost predicate Shown()
      reads this
    {
      shownTotal == TotalPrice(items) && shownCount == TotalQuantity(items)
    }

    /** Every product in the cart that has an add button has it disabled. */
    ghost predicate DisabledCoversCart()
      reads this
    {
      Ids(items) * buttons <= disabled
    }

    /** The script starts with an empty cart and the page's buttons enabled. */
    constructor (buttons: set<string>, storage: LocalStorage)
      ensures Valid() && Shown()
      ensures items == [] && disabled == {}
      ensures this.buttons == buttons && this.storage == storage
    {
      items := [];
      disabled := {};
      this.buttons := buttons;
      shownTotal, shownCount := 0, 0;
      this.storage := storage;
    }

    /** The figures of the render function, written to the panel and the header. */
    method Render()
      modifies this`shownTotal, this`shownCount
      ensures Shown()
    {
      var total, totalItems := CartTotals(items);
      shownTotal, shownCount := total, totalItems;
    }

    /** Writes the cart under its key. */
    method Save()
      modifies storage
      ensures storage.entries == old(storage.entries)[CartKey := Encode(items)]
    {
      storage.SetItem(CartKey, Encode(items));
    }

    /**
     * A click on the add button of a product: disable that button, then add
     * the product. A disabled button receives no clicks.
     */
    method ClickAdd(id: string, name: string, price: int, imageUrl: string)
      requires Valid() && id in buttons && id !in disabled
      modifies this, storage
      ensures Valid()
      ensures disabled == old(disabled) + {id}
      ensures items == WithAdded(old(items), id, name, price, imageUrl)
      ensures Shown()
      ensures storage.entries == old(storage.entries)[CartKey := Encode(items)]
      ensures old(DisabledCoversCart()) ==> DisabledCoversCart()
    {
      AddedIds(items, id, name, price, imageUrl);
      disabled := disabled + {id};
      AddItem(id, name, price, imageUrl);
    }

    /** One more unit of an id already in the cart, or a new item with quantity 1 at the end. */
    method AddItem(id: string, name: string, price: int, imageUrl: string)
      modifies this, storage
      ensures items == WithAdded(old(items), id, name, price, imageUrl)
      ensures disabled == old(disabled)
      ensures Shown()
      ensures storage.entries == old(storage.entries)[CartKey := Encode(items)]
    {
      ghost var before := items;
      var i := FindIndex(items, id);
      if i != -1 {
        items := items[i := items[i].(quantity := items[i].quantity + 1)];
      } else {
        items := items + [LineItem(id, name, price, 1, imageUrl)];
      }
      assert items == WithAdded(before, id, name, price, imageUrl);
      Render();
      Save();
    }

    /** Enables the add button of `id`, when the page has one. */
    method EnableAddButton(id: string)
      requires Valid()
      modifies this`disabled
      ensures Valid()
      ensures disabled == old(disabled) - {id}
    {
      if id in buttons {
        disabled := disabled - {id};
      }
    }

    /**
     * Removes the item with `id`, re-enabling its add button only when it was
     * found, and saves the cart in either case.
     */
    method DeleteItem(id: string)
      requires Valid()
      modifies this, storage
      ensures Valid()
      ensures items == WithDeleted(old(items), id)
      ensures disabled == if id in old(Ids(items)) then old(disabled) - {id} else old(disabled)
      ensures Shown()
      ensures storage.entries == old(storage.entries)[CartKey := Encode(items)]
      ensures old(UniqueIds(items) && DisabledCoversCart()) ==> DisabledCoversCart()
    {
      if UniqueIds(items) {
        DeletedIds(items, id);
      }
      ghost var before := items;
      var i := FindIndex(items, id);
      if i != -1 {
        items := items[..i] + items[i + 1..];
        assert items == WithDeleted(before, id);
        EnableAddButton(id);
      }
      Render();
      Save();
    }

    /**
     * Changes the quantity of the item with `id` by `change`, removing the item
     * when its quantity drops to 0 or below. An absent id changes nothing,
     * neither the panel nor the storage. The add button is left as it is.
     */
    method UpdateQuantity(id: string, change: int)
      requires Valid()
      modifies this, storage
      ensures Valid()
      ensures items == WithQuantityChange(old(items), id, change)
      ensures disabled == old(disabled)
      ensures id in old(Ids(items)) ==>
        Shown() && storage.entries == old(storage.entries)[CartKey := Encode(items)]
      ensures id !in old(Ids(items)) ==>
        shownTotal == old(shownTotal) && shownCount == old(shownCount) && storage.entries == old(storage.entries)
      ensures old(DisabledCoversCart()) ==> DisabledCoversCart()
    {
      var i := FindIndex(items, id);
      if i != -1 {
        ghost var before := items;
        var quantity := items[i].quantity + change;
        items := items[i := items[i].(quantity := quantity)];
        if quantity <= 0 {
          items := items[..i] + items[i + 1..];
          assert items == RemoveAt(before, i);
        }
        assert items == WithQuantityChange(before, id, change);
        ChangeKeepsInvariants(before, id, change);
        Render();
        Save();
      }
    }

    /**
     * Loads the cart from storage, falling back to the empty cart when the key
     * is missing or its data does not parse, then disables the add button of
     * every loaded product and renders. Storage is not written.
     */
    method Load()
      requires Valid()
      modifies this
      ensures Valid()
      ensures items == Decode(storage.GetItem(CartKey))
      ensures disabled == old(disabled) + Ids(items) * buttons
      ensures Shown()
      ensures DisabledCoversCart()
    {
      var saved := storage.GetItem(CartKey);
      items := Decode(saved);
      var k := 0;
      while k < |items|
        invariant 0 <= k <= |items|
        invariant items == Decode(saved)
        invariant disabled == old(disabled) + Ids(items[..k]) * buttons
      {
        IdsAppend(items[..k], items[k]);
        assert items[..k + 1] == items[..k] + [items[k]];
        if items[k].id in buttons {
          disabled := disabled + {items[k].id};
        }
        k := k + 1;
      }
      assert items[..k] == items;
      Render();
    }
  }

  /**
   * When every carted product's add button is disabled, a click on an enabled
   * add button always appends a new item with quantity 1.
   */
  lemma EnabledClickAppends(cart: seq<LineItem>, buttons: set<string>, disabled: set<string>,
                            id: string, name: string, price: int, imageUrl: string)
    requires Ids(cart) * buttons <= disabled && id in buttons && id !in disabled
    ensures WithAdded(cart, id, name, price, imageUrl) == cart + [LineItem(id, name, price, 1, imageUrl)]
  {
  }

  /** After the add button of a product is used and the item deleted, the button is enabled again. */
  method DeletedProductCanBeAddedAgain() returns (enabled: bool)
    ensures enabled
  {
    var storage := new LocalStorage(map[]);
    var store := new CartStore({"A1"}, storage);
    store.ClickAdd("A1", "Widget", 999, "/a1.png");
    store.DeleteItem("A1");
    enabled := store.items == [] && "A1" !in store.disabled;
  }

  /**
   * Lowering a product's quantity to 0 removes it from the cart but leaves
   * its add button disabled.
   */
  method RemovedByQuantityStaysDisabled() returns (disabled: bool)
    ensures disabled
  {
    var storage := new LocalStorage(map[]);
    var store := new CartStore({"B1"}, storage);
    store.ClickAdd("B1", "Gadget", 500, "/b1.png");
    store.UpdateQuantity("B1", -1);
    disabled := store.items == [] && "B1" in store.disabled;
  }

  /**
   * A cart saved by one page load is what the next page load shows: one click
   * on the add button and one on the row's "+" button, then a reload.
   */
  method ReloadRestoresCart(buttons: set<string>, id: string, name: string, price: int, imageUrl: string)
      returns (same: bool)
    requires id in buttons
    ensures same
  {
    var storage := new LocalStorage(map[]);
    var first := new CartStore(buttons, storage);
    first.ClickAdd(id, name, price, imageUrl);
    assert first.items == [LineItem(id, name, price, 1, imageUrl)];
    first.UpdateQuantity(id, 1);
    assert first.items == [LineItem(id, name, price, 2, imageUrl)];
    assert storage.GetItem(CartKey) == Some(Serialized(first.items));
    var second := new CartStore(buttons, storage);
    second.Load();
    same := second.items == first.items == [LineItem(id, name, price, 2, imageUrl)] && id in second.disabled;
  }

  /** Stored data that does not parse loads as the empty cart. */
  method CorruptStorageLoadsEmpty(buttons: set<string>) returns (empty: bool)
    ensures empty
  {
    var storage := new LocalStorage(map[CartKey := Unparsable]);
    var store := new CartStore(buttons, storage);
    store.Load();
    empty := store.items == [] && store.shownTotal == 0 && store.shownCount == 0;
  }
}
