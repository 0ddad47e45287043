/**
 * The wishlist: the wishlist page's list (src/components/WishlistItems.tsx) and
 * the product page's toggle button (src/components/AddToWishlistButton.tsx).
 * Entries are product snapshots (the `WishlistItem` shape of
 * src/app/wishlist/page.tsx).
 */
module Wishlist {
  import opened Wrappers
  import opened Cart
  import opened Catalog
  import opened Store

  /** `list.filter(item => item.id !== id)` */
  function RemoveById(list: seq<Product>, id: int): (r: seq<Product>)
    ensures |r| <= |list|
    ensures forall p :: p in r <==> p in list && p.id != id
  {
    if list == [] then []
    else (if list[0].id == id then [] else [list[0]]) + RemoveById(list[1..], id)
  }

  /** Removal by id keeps the other entries in their order. */
  lemma {:induction false} RemoveByIdConcat(a: seq<Product>, b: seq<Product>, id: int)
    ensures RemoveById(a + b, id) == RemoveById(a, id) + RemoveById(b, id)
    decreases |a|
  {
    if a == [] {
      assert a + b == b;
    } else {
      assert (a + b)[1..] == a[1..] + b;
      RemoveByIdConcat(a[1..], b, id);
    }
  }

  lemma {:induction false} RemoveByIdAbsent(list: seq<Product>, id: int)
    requires forall i :: 0 <= i < |list| ==> list[i].id != id
    ensures RemoveById(list, id) == list
    decreases |list|
  {
    if list != [] {
      RemoveByIdAbsent(list[1..], id);
    }
  }

  /** `list.some(item => item.id === id)` */
  predicate InWishlist(list: seq<Product>, id: int) {
    exists i :: 0 <= i < |list| && list[i].id == id
  }

  /** The line the wishlist adds to the cart: `{...item, quantity: 1}`, with no size or colour chosen. */
  function WishlistLine(item: Product): (l: CartLine)
    ensures l.id == item.id && l.name == item.name && l.price == item.price
    ensures l.imagePath == item.imagePath && l.quantity == 1
    ensures l.selectedSize == None && l.selectedColor == None
  {
    CartLine(item.id, item.name, item.price, 1, item.imagePath, None, None)
  }

  /** The wishlist page's list. */
  class WishlistItems {
    var items: seq<Product>

    constructor ()
      ensures items == []
    {
      items := [];
    }

    /**
     * `loadWishlistItems`, run on mount and on every cross-tab storage event:
     * an absent key keeps the list, unparseable text empties it, and a parsed
     * value replaces it.
     */
    method Load(store: LocalStore)
      modifies this
      ensures store.wishlistItems == Absent ==> items == old(items)
      ensures store.wishlistItems == Corrupt ==> items == []
      ensures store.wishlistItems.Parsed? ==> items == store.wishlistItems.value
    {
      match store.wishlistItems {
        case Absent =>
        case Corrupt => items := [];
        case Parsed(list) => items := list;
      }
    }

    /** `handleRemoveFromWishlist(id)`: drop every entry with `id`, in the list and in storage. */
    method RemoveFromWishlist(store: LocalStore, id: int)
      modifies this, store`wishlistItems
      ensures items == RemoveById(old(items), id)
      ensures store.wishlistItems == Parsed(items)
    {
      items := RemoveById(items, id);
      store.wishlistItems := Parsed(items);
    }

    /**
     * `handleAddToCart(item)`: merge into the stored cart by `id` alone (the
     * first line with that id rises by one, whatever its size) or append the
     * item with quantity 1. Unparseable stored text is caught and reported
     * (`ok` false) and nothing changes. The wishlist is never touched.
     */
    method AddToCart(store: LocalStore, item: Product) returns (ok: bool)
      modifies store`cartItems
      ensures items == old(items)
      ensures ok <==> old(store.cartItems) != Corrupt
      ensures old(store.cartItems) == Corrupt ==> store.cartItems == Corrupt
      ensures old(store.cartItems) == Absent ==>
                store.cartItems == Parsed(MergeAdd([], WishlistLine(item), ById))
      ensures old(store.cartItems).Parsed? ==>
                store.cartItems == Parsed(MergeAdd(old(store.cartItems).value, WishlistLine(item), ById))
    {
      var cartItems: seq<CartLine>;
      match store.cartItems {
        case Corrupt => return false;
        case Absent => cartItems := [];
        case Parsed(lines) => cartItems := lines;
      }
      var line := WishlistLine(item);
      var i := FindIndex(cartItems, line, ById);
      FirstMatchUnique(cartItems, line, ById, i);
      if i != -1 {
        cartItems := cartItems[i := cartItems[i].(quantity := cartItems[i].quantity + 1)];
      } else {
        cartItems := cartItems + [line];
      }
      store.cartItems := Parsed(cartItems);
      ok := true;
    }
  }

  /** What a toggle stores: without the flag it appends, with it it removes every entry with the id. */
  function Toggled(list: seq<Product>, product: Product, inWishlist: bool): seq<Product> {
    if inWishlist then RemoveById(list, product.id) else list + [product]
  }

  /** After a toggle the product is present exactly when the flag was clear. */
  lemma ToggledMembership(list: seq<Product>, product: Product, inWishlist: bool)
    ensures InWishlist(Toggled(list, product, inWishlist), product.id) == !inWishlist
  {
    var r := Toggled(list, product, inWishlist);
    if !inWishlist {
      assert r[|list|] == product;
    }
  }

  /** Entries of other products are unchanged and keep their order. */
  lemma ToggledKeepsOthers(list: seq<Product>, product: Product, inWishlist: bool)
    ensures RemoveById(Toggled(list, product, inWishlist), product.id) == RemoveById(list, product.id)
  {
    if inWishlist {
      var r := RemoveById(list, product.id);
      forall i | 0 <= i < |r| ensures r[i].id != product.id {
        assert r[i] in r;
      }
      RemoveByIdAbsent(r, product.id);
    } else {
      RemoveByIdConcat(list, [product], product.id);
      assert RemoveById([product], product.id) == [];
    }
  }

  /**
   * The wishlist property: with the flag consistent with storage, a toggle
   * keeps it consistent, and two toggles in a row restore whether the product
   * is present.
   */
  lemma TwoTogglesRestorePresence(list: seq<Product>, product: Product)
    ensures var once := Toggled(list, product, InWishlist(list, product.id));
            InWishlist(once, product.id) == !InWishlist(list, product.id)
            && InWishlist(Toggled(once, product, InWishlist(once, product.id)), product.id)
               == InWishlist(list, product.id)
  {
    var f := InWishlist(list, product.id);
    var once := Toggled(list, product, f);
    ToggledMembership(list, product, f);
    ToggledMembership(once, product, InWishlist(once, product.id));
  }

  /** The product page's wishlist button. The 0.5 s timer is `ProcessingDone`. */
  class AddToWishlistButton {
    const product: Product
    var isInWishlist: bool
    var isProcessing: bool

    constructor (product: Product)
      ensures this.product == product && !isInWishlist && !isProcessing
    {
      this.product := product;
      isInWishlist := false;
      isProcessing := false;
    }

    /**
     * The mount effect: the flag is whether some stored entry has the product's
     * id (no entry when the key is absent). Unparseable text makes the effect
     * throw before the flag is set.
     */
    method CheckMembership(store: LocalStore)
      modifies this`isInWishlist
      ensures store.wishlistItems == Absent ==> !isInWishlist
      ensures store.wishlistItems == Corrupt ==> isInWishlist == old(isInWishlist)
      ensures store.wishlistItems.Parsed? ==>
                isInWishlist == InWishlist(store.wishlistItems.value, product.id)
    {
      match store.wishlistItems {
        case Absent => isInWishlist := false;
        case Corrupt =>
        case Parsed(list) => isInWishlist := InWishlist(list, product.id);
      }
    }

    /**
     * `toggleWishlist`: ignored while processing; otherwise sets processing
     * and stores `Toggled(list, product, isInWishlist)`, flipping the flag.
     * Unparseable text makes `JSON.parse` throw once processing is set.
     */
    method Toggle(store: LocalStore)
      modifies this`isInWishlist, this`isProcessing, store`wishlistItems
      ensures old(isProcessing) ==>
                isProcessing && isInWishlist == old(isInWishlist) && store.wishlistItems == old(store.wishlistItems)
      ensures !old(isProcessing) ==> isProcessing
      ensures !old(isProcessing) && old(store.wishlistItems) == Corrupt ==>
                isInWishlist == old(isInWishlist) && store.wishlistItems == Corrupt
      ensures !old(isProcessing) && old(store.wishlistItems) != Corrupt ==>
                isInWishlist == !old(isInWishlist)
                && store.wishlistItems == Parsed(Toggled(
                     if old(store.wishlistItems).Parsed? then old(store.wishlistItems).value else [],
                     product, old(isInWishlist)))
    {
      if isProcessing {
        return;
      }
      isProcessing := true;
      var list: seq<Product>;
      match store.wishlistItems {
        case Corrupt => return;
        case Absent => list := [];
        case Parsed(entries) => list := entries;
      }
      if isInWishlist {
        store.wishlistItems := Parsed(RemoveById(list, product.id));
        isInWishlist := false;
      } else {
        list := list + [product];
        store.wishlistItems := Parsed(list);
        isInWishlist := true;
      }
    }

    method ProcessingDone()
      modifies this`isProcessing
      ensures !isProcessing
    {
      isProcessing := false;
    }
  }
}
