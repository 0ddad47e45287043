/**
 * The browser's localStorage as the storefront uses it: a handful of keys, each
 * holding a JSON blob. A key is absent, holds text that does not parse, or holds
 * a parsed value; every writer in the source stores a well-formed value.
 */
module Store {
  import opened Wrappers
  import opened Cart
  import opened Catalog

  datatype Stored<T> = Absent | Corrupt | Parsed(value: T)

  /** The `authUser` record written on login (its `loginTime` is a clock reading and is left out). */
  datatype AuthUser = AuthUser(email: string, loginMethod: string)

  /** One entry of `registeredUsers` (its `registrationDate` is left out). */
  datatype UserRecord = UserRecord(name: string, email: string, phone: string)

  class LocalStore {
    var cartItems: Stored<seq<CartLine>>
    var wishlistItems: Stored<seq<Product>>
    var isAuthenticated: Option<string>
    var authUser: Option<AuthUser>
    var registeredUsers: Stored<seq<UserRecord>>

    /** A browser that has never visited the store. */
    constructor ()
      ensures cartItems == Absent && wishlistItems == Absent && registeredUsers == Absent
      ensures isAuthenticated == None && authUser == None
    {
      cartItems := Absent;
      wishlistItems := Absent;
      isAuthenticated := None;
      authUser := None;
      registeredUsers := Absent;
    }
  }
}
