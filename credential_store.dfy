/** The browser storage slot under the key 'token', read and written by the
    session (src/context/AuthContext.tsx) and by the request gateway
    (src/services/api.ts). One object is shared by both, as the one
    `localStorage` is. */
module CredentialStore {
  import opened Wrappers

  /** JavaScript truthiness of a stored token (`if (token)`): a missing item
      and the empty string both count as "no token". */
  predicate Present(token: Option<string>)
  {
    token.Some? && token.value != ""
  }

  class TokenSlot {
    /** `localStorage.getItem('token')`: `None` when the item is not set. */
    var token: Option<string>

    constructor (initial: Option<string>)
      ensures token == initial
    {
      token := initial;
    }

    /** `localStorage.getItem('token')` */
    method GetItem() returns (t: Option<string>)
      ensures t == token
    {
      t := token;
    }

    /** `localStorage.setItem('token', value)`: overwrites any earlier token. */
    method SetItem(value: string)
      modifies this
      ensures token == Some(value)
    {
      token := Some(value);
    }

    /** `localStorage.removeItem('token')`: safe to call when nothing is stored. */
    method RemoveItem()
      modifies this
      ensures token == None
    {
      token := None;
    }
  }
}
