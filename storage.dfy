/** The browser's durable key/value store (`localStorage`), shared by every component.
    Values are opaque strings, except the guest cart under the key 'cartItems', which the
    source keeps as a JSON array and which is held here as the list it encodes. */
module BrowserStorage {
  import opened Common

  /** One cart line, as the cart drawer and the guest cart store it. */
  datatype CartItem = CartItem(id: string, name: string, price: int, quantity: int, image: string)

  const CartKey := "cartItems"
  const TokenKey := "token"
  const UserKey := "user"

  class LocalStorage {
    /** Every key other than 'cartItems' and its string value. */
    var entries: map<string, string>
    /** The key 'cartItems': absent, or the serialised guest cart. */
    var cartItems: Option<seq<CartItem>>

    constructor (entries: map<string, string>, cartItems: Option<seq<CartItem>>)
      requires CartKey !in entries
      ensures this.entries == entries && this.cartItems == cartItems
    {
      this.entries := entries;
      this.cartItems := cartItems;
    }

    /** `localStorage.getItem('token')`, which is `null` when the key is absent. */
    function Token(): (r: Option<string>)
      reads this
      ensures r.Some? <==> TokenKey in entries
      ensures r.Some? ==> r.value == entries[TokenKey]
    {
      if TokenKey in entries then Some(entries[TokenKey]) else None
    }

    /** The truth value JavaScript gives `getItem('token')`: present and non-empty. */
    predicate HasToken()
      reads this
    {
      TokenKey in entries && entries[TokenKey] != ""
    }
  }
}
