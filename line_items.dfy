/**
 * The cart as an ordered sequence of line items, and the meaning of the three
 * operations both page scripts perform on it: add one unit of a product,
 * delete a product, and change a product's quantity by a signed amount.
 * The classes in AppCart and KeepCart update their `items` field exactly as
 * the functions here say; the lemmas here state what those updates promise.
 */
module LineItems {

  /** One product entry of the cart. `price` is in integer cents. */
  datatype LineItem = LineItem(id: string, name: string, price: int, quantity: int, imageUrl: string)

  /** The ids that occur in the cart. */
  function Ids(cart: seq<LineItem>): set<string> {
    set k | 0 <= k < |cart| :: cart[k].id
  }

  /** At most one line item per id. */
  ghost predicate UniqueIds(cart: seq<LineItem>) {
    forall j, k :: 0 <= j < k < |cart| ==> cart[j].id != cart[k].id
  }

  /** Every line item in the cart has a quantity of at least 1. */
  ghost predicate PositiveQuantities(cart: seq<LineItem>) {
    forall k :: 0 <= k < |cart| ==> cart[k].quantity > 0
  }

  /**
   * The index of the first line item with the given id, or -1 when there is
   * none: what `cart.findIndex(item => item.id === id)` returns, and the
   * element `cart.find(...)` returns when it is not -1.
   */
  function FirstIndex(cart: seq<LineItem>, id: string): (i: int)
    ensures -1 <= i < |cart|
    ensures i == -1 <==> id !in Ids(cart)
    ensures 0 <= i ==> cart[i].id == id && forall j :: 0 <= j < i ==> cart[j].id != id
  {
    if cart == [] then -1
    else if cart[0].id == id then 0
    else
      var k := FirstIndex(cart[1..], id);
      assert Ids(cart) == {cart[0].id} + Ids(cart[1..]) by {
        IdsCons(cart);
      }
      if k == -1 then -1 else k + 1
  }

  /** `findIndex` as the scripts' library runs it: a scan from the front. */
  method FindIndex(cart: seq<LineItem>, id: string) returns (i: int)
    ensures i == FirstIndex(cart, id)
  {
    i := 0;
    while i < |cart| && cart[i].id != id
      invariant 0 <= i <= |cart|
      invariant forall j :: 0 <= j < i ==> cart[j].id != id
    {
      i := i + 1;
    }
    if i == |cart| {
      i := -1;
    }
  }

  /** `cart.splice(i, 1)`: drop the item at index `i`, keeping the others in order. */
  function RemoveAt(cart: seq<LineItem>, i: int): (r: seq<LineItem>)
    requires 0 <= i < |cart|
    ensures |r| == |cart| - 1
    ensures forall j :: 0 <= j < i ==> r[j] == cart[j]
    ensures forall j :: i <= j < |r| ==> r[j] == cart[j + 1]
  {
    cart[..i] + cart[i + 1..]
  }

  /**
   * The cart after adding one unit of a product: the first item with that id
   * gets one more unit, and when there is none a new item with quantity 1 is
   * appended at the end.
   */
  function WithAdded(cart: seq<LineItem>, id: string, name: string, price: int, imageUrl: string): (r: seq<LineItem>)
    ensures |r| == if id in Ids(cart) then |cart| else |cart| + 1
  {
    var i := FirstIndex(cart, id);
    if i == -1 then
      cart + [LineItem(id, name, price, 1, imageUrl)]
    else
      cart[i := cart[i].(quantity := cart[i].quantity + 1)]
  }

  /** The cart after deleting a product: the first item with that id goes, the rest stay in order. */
  function WithDeleted(cart: seq<LineItem>, id: string): (r: seq<LineItem>)
    ensures |r| == if id in Ids(cart) then |cart| - 1 else |cart|
  {
    var i := FirstIndex(cart, id);
    if i == -1 then cart else RemoveAt(cart, i)
  }

  /**
   * The cart after changing a product's quantity by `change`: the first item
   * with that id gets its quantity plus `change`, and goes altogether when
   * that sum is 0 or less. An absent id leaves the cart as it is.
   */
  function WithQuantityChange(cart: seq<LineItem>, id: string, change: int): (r: seq<LineItem>)
    ensures id !in Ids(cart) ==> |r| == |cart|
    ensures id in Ids(cart) ==> |r| == if cart[FirstIndex(cart, id)].quantity + change <= 0 then |cart| - 1 else |cart|
  {
    var i := FirstIndex(cart, id);
    if i == -1 then
      cart
    else if cart[i].quantity + change <= 0 then
      RemoveAt(cart, i)
    else
      cart[i := cart[i].(quantity := cart[i].quantity + change)]
  }

  // ---------------------------------------------------------------------------
  // The invariants each operation keeps

  lemma AddedIds(cart: seq<LineItem>, id: string, name: string, price: int, imageUrl: string)
    ensures Ids(WithAdded(cart, id, name, price, imageUrl)) == Ids(cart) + {id}
  {
    var i := FirstIndex(cart, id);
    if i == -1 {
      IdsAppend(cart, LineItem(id, name, price, 1, imageUrl));
    } else {
      IdsUpdate(cart, i, cart[i].(quantity := cart[i].quantity + 1));
    }
  }

  lemma DeletedIds(cart: seq<LineItem>, id: string)
    requires UniqueIds(cart)
    ensures Ids(WithDeleted(cart, id)) == Ids(cart) - {id}
  {
    var i := FirstIndex(cart, id);
    if i != -1 {
      IdsRemoveAt(cart, i);
    }
  }

  /** An add puts its id into the id set, and keeps ids unique and quantities positive. */
  lemma AddKeepsInvariants(cart: seq<LineItem>, id: string, name: string, price: int, imageUrl: string)
    ensures var r := WithAdded(cart, id, name, price, imageUrl);
      && Ids(r) == Ids(cart) + {id}
      && (UniqueIds(cart) ==> UniqueIds(r))
      && (PositiveQuantities(cart) ==> PositiveQuantities(r))
  {
    AddedIds(cart, id, name, price, imageUrl);
  }

  /** With unique ids, a delete takes exactly its id out of the id set; uniqueness and positivity are kept. */
  lemma DeleteKeepsInvariants(cart: seq<LineItem>, id: string)
    ensures var r := WithDeleted(cart, id);
      && Ids(r) <= Ids(cart)
      && (UniqueIds(cart) ==> UniqueIds(r) && Ids(r) == Ids(cart) - {id})
      && (PositiveQuantities(cart) ==> PositiveQuantities(r))
  {
    var i := FirstIndex(cart, id);
    if i != -1 {
      RemoveAtKeeps(cart, i);
    }
  }

  /**
   * A quantity change adds no id, keeps ids unique, and keeps quantities
   * positive, since an item whose quantity would fall to 0 or less is removed.
   */
  lemma ChangeKeepsInvariants(cart: seq<LineItem>, id: string, change: int)
    ensures var r := WithQuantityChange(cart, id, change);
      && Ids(r) <= Ids(cart)
      && (UniqueIds(cart) ==> UniqueIds(r))
      && (PositiveQuantities(cart) ==> PositiveQuantities(r))
  {
    var i := FirstIndex(cart, id);
    if i != -1 {
      if cart[i].quantity + change <= 0 {
        RemoveAtKeeps(cart, i);
      } else {
        IdsUpdate(cart, i, cart[i].(quantity := cart[i].quantity + change));
      }
    }
  }

  // ---------------------------------------------------------------------------
  // Ids of rearranged carts

  lemma IdsCons(cart: seq<LineItem>)
    requires cart != []
    ensures Ids(cart) == {cart[0].id} + Ids(cart[1..])
  {
    forall x | x in Ids(cart) ensures x in {cart[0].id} + Ids(cart[1..]) {
      var k :| 0 <= k < |cart| && cart[k].id == x;
      if k > 0 {
        assert cart[1..][k - 1].id == x;
      }
    }
    forall x | x in Ids(cart[1..]) ensures x in Ids(cart) {
      var k :| 0 <= k < |cart[1..]| && cart[1..][k].id == x;
      assert cart[k + 1].id == x;
    }
  }

  lemma IdsAppend(cart: seq<LineItem>, item: LineItem)
    ensures Ids(cart + [item]) == Ids(cart) + {item.id}
  {
    var r := cart + [item];
    assert r[|cart|].id == item.id;
    forall x | x in Ids(cart) ensures x in Ids(r) {
      var k :| 0 <= k < |cart| && cart[k].id == x;
      assert r[k].id == x;
    }
  }

  lemma IdsUpdate(cart: seq<LineItem>, i: int, item: LineItem)
    requires 0 <= i < |cart| && item.id == cart[i].id
    ensures Ids(cart[i := item]) == Ids(cart)
  {
    var r := cart[i := item];
    forall x | x in Ids(cart) ensures x in Ids(r) {
      var k :| 0 <= k < |cart| && cart[k].id == x;
      assert r[k].id == x;
    }
  }

  /** Dropping one item keeps unique ids unique and positive quantities positive, and takes its id out of the id set. */
  lemma RemoveAtKeeps(cart: seq<LineItem>, i: int)
    requires 0 <= i < |cart|
    ensures var r := RemoveAt(cart, i);
      && Ids(r) <= Ids(cart)
      && (PositiveQuantities(cart) ==> PositiveQuantities(r))
      && (UniqueIds(cart) ==> UniqueIds(r) && Ids(r) == Ids(cart) - {cart[i].id})
  {
    IdsRemoveAt(cart, i);
    var r := RemoveAt(cart, i);
    if PositiveQuantities(cart) {
      forall k | 0 <= k < |r| ensures r[k].quantity > 0 {
        if k >= i { assert r[k] == cart[k + 1]; }
      }
    }
  }

  lemma IdsRemoveAt(cart: seq<LineItem>, i: int)
    requires 0 <= i < |cart|
    ensures Ids(RemoveAt(cart, i)) <= Ids(cart)
    ensures UniqueIds(cart) ==> UniqueIds(RemoveAt(cart, i)) && Ids(RemoveAt(cart, i)) == Ids(cart) - {cart[i].id}
  {
    var r := RemoveAt(cart, i);
    forall x | x in Ids(r) ensures x in Ids(cart) {
      var k :| 0 <= k < |r| && r[k].id == x;
      if k < i { assert cart[k].id == x; } else { assert cart[k + 1].id == x; }
    }
    if UniqueIds(cart) {
      forall j, k | 0 <= j < k < |r| ensures r[j].id != r[k].id {
        if k < i {
        } else if j < i {
          assert r[k] == cart[k + 1];
        } else {
          assert r[j] == cart[j + 1] && r[k] == cart[k + 1];
        }
      }
      forall x | x in Ids(cart) - {cart[i].id} ensures x in Ids(r) {
        var k :| 0 <= k < |cart| && cart[k].id == x;
        if k < i { assert r[k].id == x; } else { assert k > i && r[k - 1].id == x; }
      }
      forall x | x in Ids(r) ensures x != cart[i].id {
        var k :| 0 <= k < |r| && r[k].id == x;
        if k >= i { assert r[k] == cart[k + 1]; }
      }
    }
  }

  // ---------------------------------------------------------------------------
  // What the three operations do to the item list

  /** In a cart with unique ids, the first index of an item's id is that item's own index. */
  lemma FirstIndexOfUnique(cart: seq<LineItem>, k: int)
    requires UniqueIds(cart) && 0 <= k < |cart|
    ensures FirstIndex(cart, cart[k].id) == k
  {
    assert cart[k].id in Ids(cart);
  }

  /** Adding an id already present raises that item's quantity by exactly 1 and touches nothing else. */
  lemma AddPresent(cart: seq<LineItem>, k: int, name: string, price: int, imageUrl: string)
    requires UniqueIds(cart) && 0 <= k < |cart|
    ensures var r := WithAdded(cart, cart[k].id, name, price, imageUrl);
      && |r| == |cart|
      && r[k] == cart[k].(quantity := cart[k].quantity + 1)
      && forall j :: 0 <= j < |cart| && j != k ==> r[j] == cart[j]
  {
    FirstIndexOfUnique(cart, k);
  }

  /** Adding an absent id appends exactly one item with quantity 1 and keeps the earlier items. */
  lemma AddAbsent(cart: seq<LineItem>, id: string, name: string, price: int, imageUrl: string)
    requires id !in Ids(cart)
    ensures WithAdded(cart, id, name, price, imageUrl) == cart + [LineItem(id, name, price, 1, imageUrl)]
  {
  }

  /** Deleting a present id removes exactly the item that has it, keeping the others in order. */
  lemma DeletePresent(cart: seq<LineItem>, k: int)
    requires UniqueIds(cart) && 0 <= k < |cart|
    ensures WithDeleted(cart, cart[k].id) == cart[..k] + cart[k + 1..]
  {
    FirstIndexOfUnique(cart, k);
  }

  /** Deleting an absent id leaves the cart as it was. */
  lemma DeleteAbsent(cart: seq<LineItem>, id: string)
    requires id !in Ids(cart)
    ensures WithDeleted(cart, id) == cart
  {
  }

  /** Changing a present item's quantity sets it to old + change, or removes the item when that is 0 or less. */
  lemma ChangePresent(cart: seq<LineItem>, k: int, change: int)
    requires UniqueIds(cart) && 0 <= k < |cart|
    ensures var r := WithQuantityChange(cart, cart[k].id, change);
      if cart[k].quantity + change <= 0 then
        r == cart[..k] + cart[k + 1..]
      else
        && |r| == |cart|
        && r[k] == cart[k].(quantity := cart[k].quantity + change)
        && forall j :: 0 <= j < |cart| && j != k ==> r[j] == cart[j]
  {
    FirstIndexOfUnique(cart, k);
    var r := WithQuantityChange(cart, cart[k].id, change);
    if cart[k].quantity + change <= 0 {
      assert r == RemoveAt(cart, k);
    } else {
      assert r == cart[k := cart[k].(quantity := cart[k].quantity + change)];
    }
  }

  /** Changing the quantity of an absent id leaves the cart as it was. */
  lemma ChangeAbsent(cart: seq<LineItem>, id: string, change: int)
    requires id !in Ids(cart)
    ensures WithQuantityChange(cart, id, change) == cart
  {
  }

  /** Lowering an item's quantity by all it has removes it: no item is left with quantity 0. */
  lemma ChangeByMinusQuantityRemoves(cart: seq<LineItem>, k: int)
    requires UniqueIds(cart) && 0 <= k < |cart|
    ensures cart[k].id !in Ids(WithQuantityChange(cart, cart[k].id, -cart[k].quantity))
  {
    var id := cart[k].id;
    var i := FirstIndex(cart, id);
    IdsRemoveAt(cart, i);
  }

  // ---------------------------------------------------------------------------
  // Sequences of operations

  /** One user action on the cart. */
  datatype Action =
    | Add(id: string, name: string, price: int, imageUrl: string)
    | Delete(id: string)
    | ChangeQuantity(id: string, change: int)

  function Apply(cart: seq<LineItem>, action: Action): seq<LineItem> {
    match action
    case Add(id, name, price, imageUrl) => WithAdded(cart, id, name, price, imageUrl)
    case Delete(id) => WithDeleted(cart, id)
    case ChangeQuantity(id, change) => WithQuantityChange(cart, id, change)
  }

  function Run(cart: seq<LineItem>, actions: seq<Action>): seq<LineItem>
    decreases |actions|
  {
    if actions == [] then cart else Run(Apply(cart, actions[0]), actions[1..])
  }

  /** Every sequence of actions keeps unique ids unique, whatever the quantities. */
  lemma {:induction false} RunKeepsUniqueIds(cart: seq<LineItem>, actions: seq<Action>)
    requires UniqueIds(cart)
    ensures UniqueIds(Run(cart, actions))
    decreases |actions|
  {
    if actions != [] {
      match actions[0] {
        case Add(id, name, price, imageUrl) => AddKeepsInvariants(cart, id, name, price, imageUrl);
        case Delete(id) => DeleteKeepsInvariants(cart, id);
        case ChangeQuantity(id, change) => ChangeKeepsInvariants(cart, id, change);
      }
      RunKeepsUniqueIds(Apply(cart, actions[0]), actions[1..]);
    }
  }

  /**
   * Every sequence of actions keeps positive quantities positive, even in a
   * cart with duplicate ids.
   */
  lemma {:induction false} RunKeepsPositiveQuantities(cart: seq<LineItem>, actions: seq<Action>)
    requires PositiveQuantities(cart)
    ensures PositiveQuantities(Run(cart, actions))
    decreases |actions|
  {
    if actions != [] {
      match actions[0] {
        case Add(id, name, price, imageUrl) => AddKeepsInvariants(cart, id, name, price, imageUrl);
        case Delete(id) => DeleteKeepsInvariants(cart, id);
        case ChangeQuantity(id, change) => ChangeKeepsInvariants(cart, id, change);
      }
      RunKeepsPositiveQuantities(Apply(cart, actions[0]), actions[1..]);
    }
  }

  /** `n` adds of the same id. */
  function AddTimes(cart: seq<LineItem>, id: string, name: string, price: int, imageUrl: string, n: nat): seq<LineItem> {
    if n == 0 then cart else WithAdded(AddTimes(cart, id, name, price, imageUrl, n - 1), id, name, price, imageUrl)
  }

  /** `n` >= 1 adds of an id not yet in the cart leave exactly one item for it, with quantity `n`, at the end. */
  lemma {:induction false} RepeatedAddCounts(cart: seq<LineItem>, id: string, name: string, price: int, imageUrl: string, n: nat)
    requires id !in Ids(cart) && n >= 1
    ensures AddTimes(cart, id, name, price, imageUrl, n) == cart + [LineItem(id, name, price, n, imageUrl)]
  {
    if n > 1 {
      RepeatedAddCounts(cart, id, name, price, imageUrl, n - 1);
      var last := LineItem(id, name, price, n - 1, imageUrl);
      var prev := cart + [last];
      assert AddTimes(cart, id, name, price, imageUrl, n) == WithAdded(prev, id, name, price, imageUrl);
      FirstIndexOfLast(cart, last);
      assert WithAdded(prev, id, name, price, imageUrl) == prev[|cart| := last.(quantity := n)];
      assert prev[|cart| := last.(quantity := n)] == cart + [LineItem(id, name, price, n, imageUrl)];
    }
  }

  /** An id that only the last item has is found at the last index. */
  lemma FirstIndexOfLast(cart: seq<LineItem>, last: LineItem)
    requires last.id !in Ids(cart)
    ensures FirstIndex(cart + [last], last.id) == |cart|
  {
    var r := cart + [last];
    assert r[|cart|].id == last.id;
  }

  // ---------------------------------------------------------------------------
  // Derived figures

  /** The sum of `f` over the cart, from its first item to its last. */
  ghost function Sum(cart: seq<LineItem>, f: LineItem -> int): int {
    if cart == [] then 0 else Sum(cart[..|cart| - 1], f) + f(cart[|cart| - 1])
  }

  function Quantity(item: LineItem): int {
    item.quantity
  }

  /** What one row of the cart panel costs. */
  function Subtotal(item: LineItem): int {
    item.price * item.quantity
  }

  /** The item count shown in the header: the sum of the quantities. */
  ghost function TotalQuantity(cart: seq<LineItem>): int {
    Sum(cart, Quantity)
  }

  /** The total shown in the cart panel: the sum of price times quantity. */
  ghost function TotalPrice(cart: seq<LineItem>): int {
    Sum(cart, Subtotal)
  }

  /** The accumulation loop of the render function, in the cart's order. */
  method CartTotals(cart: seq<LineItem>) returns (total: int, totalItems: int)
    ensures total == TotalPrice(cart) && totalItems == TotalQuantity(cart)
  {
    total, totalItems := 0, 0;
    for k := 0 to |cart|
      invariant total == TotalPrice(cart[..k])
      invariant totalItems == TotalQuantity(cart[..k])
    {
      assert cart[..k + 1][..k] == cart[..k];
      var itemTotal := cart[k].price * cart[k].quantity;
      total := total + itemTotal;
      totalItems := totalItems + cart[k].quantity;
    }
    assert cart[..|cart|] == cart;
  }

  lemma {:induction false} SumAppend(a: seq<LineItem>, b: seq<LineItem>, f: LineItem -> int)
    ensures Sum(a + b, f) == Sum(a, f) + Sum(b, f)
    decreases |b|
  {
    if b == [] {
      assert a + b == a;
    } else {
      SumAppend(a, b[..|b| - 1], f);
      assert (a + b)[..|a + b| - 1] == a + b[..|b| - 1];
    }
  }

  lemma SumAround(cart: seq<LineItem>, i: int, f: LineItem -> int)
    requires 0 <= i < |cart|
    ensures Sum(cart, f) == Sum(cart[..i], f) + f(cart[i]) + Sum(cart[i + 1..], f)
  {
    assert cart == cart[..i] + [cart[i]] + cart[i + 1..];
    SumAppend(cart[..i] + [cart[i]], cart[i + 1..], f);
    SumAppend(cart[..i], [cart[i]], f);
    assert [cart[i]][..0] == [];
  }

  /** Replacing one item changes the sum by the difference of the two items' values. */
  lemma SumUpdate(cart: seq<LineItem>, i: int, item: LineItem, f: LineItem -> int)
    requires 0 <= i < |cart|
    ensures Sum(cart[i := item], f) == Sum(cart, f) - f(cart[i]) + f(item)
  {
    var r := cart[i := item];
    SumAround(cart, i, f);
    SumAround(r, i, f);
    assert r[..i] == cart[..i];
    assert r[i + 1..] == cart[i + 1..];
  }

  /** Removing one item lowers the sum by that item's value. */
  lemma SumRemoveAt(cart: seq<LineItem>, i: int, f: LineItem -> int)
    requires 0 <= i < |cart|
    ensures Sum(RemoveAt(cart, i), f) == Sum(cart, f) - f(cart[i])
  {
    SumAround(cart, i, f);
    SumAppend(cart[..i], cart[i + 1..], f);
  }

  /** With positive quantities the item count is at least the number of rows, and 0 exactly for the empty cart. */
  lemma {:induction false} TotalQuantityBounds(cart: seq<LineItem>)
    requires PositiveQuantities(cart)
    ensures TotalQuantity(cart) >= |cart|
    ensures TotalQuantity(cart) == 0 <==> cart == []
  {
    if cart != [] {
      TotalQuantityBounds(cart[..|cart| - 1]);
    }
  }

  /** Adding one unit raises the count by 1 and the total by the unit price of the item that got it. */
  lemma AddTotals(cart: seq<LineItem>, id: string, name: string, price: int, imageUrl: string)
    ensures var r := WithAdded(cart, id, name, price, imageUrl);
      var i := FirstIndex(cart, id);
      && TotalQuantity(r) == TotalQuantity(cart) + 1
      && TotalPrice(r) == TotalPrice(cart) + (if i == -1 then price else cart[i].price)
  {
    var i := FirstIndex(cart, id);
    var item := LineItem(id, name, price, 1, imageUrl);
    if i == -1 {
      assert WithAdded(cart, id, name, price, imageUrl) == cart + [item];
      SumAppend(cart, [item], Quantity);
      SumAppend(cart, [item], Subtotal);
      assert [item][..0] == [];
    } else {
      assert WithAdded(cart, id, name, price, imageUrl) == cart[i := cart[i].(quantity := cart[i].quantity + 1)];
      ChangeKeptTotals(cart, i, 1);
    }
  }

  /** Deleting a present item lowers the count by its quantity and the total by its subtotal. */
  lemma DeleteTotals(cart: seq<LineItem>, id: string)
    ensures var r := WithDeleted(cart, id);
      var i := FirstIndex(cart, id);
      && TotalQuantity(r) == TotalQuantity(cart) - (if i == -1 then 0 else cart[i].quantity)
      && TotalPrice(r) == TotalPrice(cart) - (if i == -1 then 0 else Subtotal(cart[i]))
  {
    var i := FirstIndex(cart, id);
    if i != -1 {
      SumRemoveAt(cart, i, Quantity);
      SumRemoveAt(cart, i, Subtotal);
    }
  }

  /** Raising a row's quantity by `change` raises its subtotal by its price times `change`. */
  lemma SubtotalChange(item: LineItem, change: int)
    ensures Subtotal(item.(quantity := item.quantity + change)) == Subtotal(item) + item.price * change
  {
    assert item.price * (item.quantity + change) == item.price * item.quantity + item.price * change;
  }

  /** Raising one row's quantity by `change` moves the count by `change` and the total by its price times `change`. */
  lemma ChangeKeptTotals(cart: seq<LineItem>, i: int, change: int)
    requires 0 <= i < |cart|
    ensures var r := cart[i := cart[i].(quantity := cart[i].quantity + change)];
      && TotalQuantity(r) == TotalQuantity(cart) + change
      && TotalPrice(r) == TotalPrice(cart) + cart[i].price * change
  {
    var changed := cart[i].(quantity := cart[i].quantity + change);
    SumUpdate(cart, i, changed, Quantity);
    SumUpdate(cart, i, changed, Subtotal);
    SubtotalChange(cart[i], change);
  }

  /**
   * Changing a present item's quantity by `change` changes the count by
   * `change` and the total by its price times `change`, or, when the item is
   * removed, lowers them by its quantity and its subtotal. An absent id
   * changes neither.
   */
  lemma ChangeTotals(cart: seq<LineItem>, id: string, change: int)
    ensures var r := WithQuantityChange(cart, id, change);
      var i := FirstIndex(cart, id);
      if i == -1 then
        TotalQuantity(r) == TotalQuantity(cart) && TotalPrice(r) == TotalPrice(cart)
      else if cart[i].quantity + change <= 0 then
        TotalQuantity(r) == TotalQuantity(cart) - cart[i].quantity
        && TotalPrice(r) == TotalPrice(cart) - Subtotal(cart[i])
      else
        TotalQuantity(r) == TotalQuantity(cart) + change
        && TotalPrice(r) == TotalPrice(cart) + cart[i].price * change
  {
    var i := FirstIndex(cart, id);
    if i != -1 {
      if cart[i].quantity + change <= 0 {
        SumRemoveAt(cart, i, Quantity);
        SumRemoveAt(cart, i, Subtotal);
      } else {
        ChangeKeptTotals(cart, i, change);
      }
    }
  }
}
