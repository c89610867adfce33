/**
 * The cart engine of the earlier page script: the same cart operations with
 * no persistence, and button state kept on the button objects themselves,
 * re-enabled through whatever button reference the delete handler passes.
 */
module KeepCart {
  import opened Wrappers
  import opened LineItems

  /** A button of the page: a product's "add" button or the DELETE button of a cart row. */
  datatype Button = AddButton(id: string) | DeleteButton(id: string)

  class KeepPage {
    /** The cart, in display order. */
    var items: seq<LineItem>
    /** The buttons whose `disabled` attribute is set. */
    var disabled: set<Button>
    /** The subtotal the cart panel shows, in cents. */
    var shownTotal: int
    /** The item count the cart header shows. */
    var shownCount: int

    /** The panel shows the figures of the current cart. */
    ghost predicate Shown()
      reads this
    {
      shownTotal == TotalPrice(items) && shownCount == TotalQuantity(items)
    }

    /** The script starts with an empty cart and every button enabled. */
    constructor ()
      ensures items == [] && disabled == {} && Shown()
    {
      items := [];
      disabled := {};
      shownTotal, shownCount := 0, 0;
    }

    /** The figures of the render function, written to the panel and the header. */
    method Render()
      modifies this`shownTotal, this`shownCount
      ensures Shown()
    {
      var total, totalItems := CartTotals(items);
      shownTotal, shownCount := total, totalItems;
    }

    /**
     * A click on a product's add button: disable the clicked button, then add
     * the product. A disabled button receives no clicks.
     */
    method ClickAdd(id: string, name: string, price: int, imageUrl: string)
      requires AddButton(id) !in disabled
      modifies this
      ensures disabled == old(disabled) + {AddButton(id)}
      ensures items == WithAdded(old(items), id, name, price, imageUrl)
      ensures Shown()
    {
      disabled := disabled + {AddButton(id)};
      AddItem(id, name, price, imageUrl);
    }

    /** One more unit of an id already in the cart, or a new item with quantity 1 at the end. */
    method AddItem(id: string, name: string, price: int, imageUrl: string)
      modifies this
      ensures items == WithAdded(old(items), id, name, price, imageUrl)
      ensures disabled == old(disabled)
      ensures Shown()
    {
      ghost var before := items;
      var i := FindIndex(items, id);
      if i != -1 {
        items := items[i := items[i].(quantity := items[i].quantity + 1)];
      } else {
        items := items + [LineItem(id, name, price, 1, imageUrl)];
      }
      assert items == WithAdded(before, id, name, price, imageUrl);
      Render();
    }

    /**
     * Removes the item with `id` when present, then enables the button passed
     * in, whether or not the item was found; with no button nothing is enabled.
     */
    method DeleteItem(id: string, button: Option<Button>)
      modifies this
      ensures items == WithDeleted(old(items), id)
      ensures disabled == if button.Some? then old(disabled) - {button.value} else old(disabled)
      ensures Shown()
    {
      ghost var before := items;
      var i := FindIndex(items, id);
      if i != -1 {
        items := items[..i] + items[i + 1..];
        assert items == WithDeleted(before, id);
      }
      if button.Some? {
        disabled := disabled - {button.value};
      }
      Render();
    }

    /**
     * A click on the DELETE button of the row of `id`: the handler passes that
     * DELETE button to DeleteItem, so no add button changes state.
     */
    method ClickDelete(id: string)
      modifies this
      ensures items == WithDeleted(old(items), id)
      ensures disabled == old(disabled) - {DeleteButton(id)}
      ensures forall x :: AddButton(x) in disabled <==> AddButton(x) in old(disabled)
      ensures Shown()
    {
      DeleteItem(id, Some(DeleteButton(id)));
    }

    /**
     * Changes the quantity of the item with `id` by `change`, removing the item
     * when its quantity drops to 0 or below. An absent id changes nothing.
     */
    method UpdateQuantity(id: string, change: int)
      modifies this
      ensures items == WithQuantityChange(old(items), id, change)
      ensures disabled == old(disabled)
      ensures id in old(Ids(items)) ==> Shown()
      ensures id !in old(Ids(items)) ==> shownTotal == old(shownTotal) && shownCount == old(shownCount)
    {
      var i := FindIndex(items, id);
      if i != -1 {
        ghost var before := items;
        var quantity := items[i].quantity + change;
        items := items[i := items[i].(quantity := quantity)];
        if quantity <= 0 {
          items := items[..i] + items[i + 1..];
          assert items == RemoveAt(before, i);
        }
        assert items == WithQuantityChange(before, id, change);
        Render();
      }
    }
  }

  /**
   * After a product is added and its row deleted, the product's add button
   * is still disabled, so the product cannot be added again.
   */
  method DeletedProductStaysDisabled() returns (stillDisabled: bool)
    ensures stillDisabled
  {
    var page := new KeepPage();
    page.ClickAdd("A1", "Widget", 999, "/a1.png");
    page.ClickDelete("A1");
    stillDisabled := page.items == [] && AddButton("A1") in page.disabled;
  }
}
