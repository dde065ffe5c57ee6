/** The browser-wide state the pages share: the storage slot under the key
    "cart" and the "cartUpdated" broadcast, kept as a count of events raised. */
module CartStorage {
  import opened CartTypes

  class CartStore {
    var stored: Stored
    var notifications: nat

    constructor (initial: Stored)
      ensures stored == initial && notifications == 0
    {
      stored := initial;
      notifications := 0;
    }

    /** `localStorage.setItem('cart', JSON.stringify(lines))`. */
    method SetItem(lines: seq<CartLine>)
      modifies this
      ensures stored == Lines(lines) && notifications == old(notifications)
    {
      stored := Lines(lines);
    }

    /** `localStorage.removeItem('cart')`. */
    method RemoveItem()
      modifies this
      ensures stored == Absent && notifications == old(notifications)
    {
      stored := Absent;
    }

    /** `window.dispatchEvent(new CustomEvent('cartUpdated'))`. */
    method DispatchCartUpdated()
      modifies this
      ensures stored == old(stored) && notifications == old(notifications) + 1
    {
      notifications := notifications + 1;
    }
  }
}
