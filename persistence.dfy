/**
 * Write-through persistence of the cart in the browser's local storage.
 * The storage is a key-value map; JSON serialisation is abstracted to the
 * three outcomes that `JSON.parse(...) || []` distinguishes.
 */
module Persistence {
  import opened Wrappers
  import opened LineItems

  /** The single key under which the cart is stored. */
  const CartKey: string := "cart"

  /** What a stored string is, as far as parsing it goes. */
  datatype StoredValue =
    | Serialized(items: seq<LineItem>)  // a JSON array of line-item records
    | FalsyLiteral                      // JSON text that parses to null, false, 0 or ""
    | Unparsable                        // text that JSON.parse rejects

  /** `JSON.stringify(cart)`: what is saved is loaded back unchanged, same items, same fields, same order. */
  function Encode(cart: seq<LineItem>): (saved: StoredValue)
    ensures Decode(Some(saved)) == cart
  {
    Serialized(cart)
  }

  /**
   * `JSON.parse(saved) || []` inside its `try`, with the `catch` falling back
   * to the empty cart. A missing key reads as null, which parses to null.
   */
  function Decode(saved: Option<StoredValue>): (cart: seq<LineItem>)
    ensures saved.Some? && saved.value.Serialized? ==> cart == saved.value.items
    ensures cart != [] ==> saved == Some(Serialized(cart))
  {
    match saved
    case None => []
    case Some(Serialized(items)) => items
    case Some(FalsyLiteral) => []
    case Some(Unparsable) => []
  }

  /** A missing key and data that fails to parse both load as the empty cart. */
  lemma DecodeFallback(saved: Option<StoredValue>)
    requires saved == None || saved == Some(FalsyLiteral) || saved == Some(Unparsable)
    ensures Decode(saved) == []
  {
  }

  /** The browser's local storage: string keys to stored strings. */
  class LocalStorage {
    var entries: map<string, StoredValue>

    constructor (entries: map<string, StoredValue>)
      ensures this.entries == entries
    {
      this.entries := entries;
    }

    /** `localStorage.getItem(key)`; None stands for null. */
    function GetItem(key: string): (saved: Option<StoredValue>)
      reads this
      ensures saved.Some? <==> key in entries
      ensures saved.Some? ==> saved.value == entries[key]
    {
      if key in entries then Some(entries[key]) else None
    }

    /** `localStorage.setItem(key, value)`: overwrites that key and no other. */
    method SetItem(key: string, value: StoredValue)
      modifies this
      ensures entries == old(entries)[key := value]
    {
      entries := entries[key := value];
    }
  }
}
