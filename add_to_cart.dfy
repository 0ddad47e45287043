/**
 * src/components/AddToCartButton.tsx: the product page's "Add to cart" button.
 * The chosen colour and size are the component's props at the time of the
 * click; the 1.5 s reset timer is the event method `ResetTimerFired`.
 */
module AddToCart {
  import opened Wrappers
  import opened Cart
  import opened Catalog
  import opened Store

  /** `!selectedSize`: no size is `null`, and a size of 0 is falsy too. */
  predicate NoSizeChosen(selectedSize: Option<int>) {
    selectedSize.None? || selectedSize.value == 0
  }

  /** `selectedSize || product.sizes[0] || 0` */
  function ChosenSize(selectedSize: Option<int>, sizes: seq<int>): (r: int)
    ensures !NoSizeChosen(selectedSize) ==> r == selectedSize.value
    ensures NoSizeChosen(selectedSize) && sizes != [] && sizes[0] != 0 ==> r == sizes[0]
    ensures NoSizeChosen(selectedSize) && (sizes == [] || sizes[0] == 0) ==> r == 0
  {
    if !NoSizeChosen(selectedSize) then selectedSize.value
    else if |sizes| > 0 && sizes[0] != 0 then sizes[0]
    else 0
  }

  /** `selectedColor || product.colors[0] || ''` */
  function ChosenColor(selectedColor: string, colors: seq<string>): (r: string)
    ensures selectedColor != "" ==> r == selectedColor
    ensures selectedColor == "" && colors != [] ==> r == colors[0]
    ensures selectedColor == "" && colors == [] ==> r == ""
  {
    if selectedColor != "" then selectedColor
    else if |colors| > 0 && colors[0] != "" then colors[0]
    else ""
  }

  /** The new line `{...product, selectedColor, selectedSize, quantity: 1}`. */
  function NewLine(p: Product, selectedColor: string, selectedSize: Option<int>): (l: CartLine)
    ensures l.id == p.id && l.name == p.name && l.price == p.price && l.imagePath == p.imagePath
    ensures l.quantity == 1
    ensures l.selectedSize == Some(ChosenSize(selectedSize, p.sizes))
    ensures l.selectedColor == Some(ChosenColor(selectedColor, p.colors))
  {
    CartLine(p.id, p.name, p.price, 1, p.imagePath,
             Some(ChosenSize(selectedSize, p.sizes)), Some(ChosenColor(selectedColor, p.colors)))
  }

  const SelectSizeError := "Please select a size"

  class AddToCartButton {
    const product: Product
    var isAdding: bool
    var isAdded: bool
    var error: Option<string>

    constructor (product: Product)
      ensures this.product == product
      ensures !isAdding && !isAdded && error == None
    {
      this.product := product;
      isAdding := false;
      isAdded := false;
      error := None;
    }

    /**
     * `addToCart`. The error is cleared first. While an add is in progress
     * nothing else happens. Without a size (when the product has sizes) the
     * size error is shown and the cart is untouched. Otherwise the stored cart
     * (`[]` when absent) is merged by `(id, selectedSize)` and written back,
     * and both flags are set. Unparseable stored text makes `JSON.parse` throw
     * after `isAdding` is set: the handler stops there and the cart is untouched.
     * The button is disabled for a product out of stock, so the handler only
     * runs for one in stock.
     */
    method AddToCart(store: LocalStore, selectedColor: string, selectedSize: Option<int>)
      requires product.inStock
      modifies this, store
      ensures unchanged(store`wishlistItems, store`isAuthenticated, store`authUser, store`registeredUsers)
      ensures old(isAdding) ==>
                error == None && isAdding && isAdded == old(isAdded) && store.cartItems == old(store.cartItems)
      ensures !old(isAdding) && NoSizeChosen(selectedSize) && |product.sizes| > 0 ==>
                error == Some(SelectSizeError) && !isAdding && isAdded == old(isAdded)
                && store.cartItems == old(store.cartItems)
      ensures !old(isAdding) && !(NoSizeChosen(selectedSize) && |product.sizes| > 0) ==>
                error == None && isAdding
                && match old(store.cartItems)
                   case Corrupt => isAdded == old(isAdded) && store.cartItems == Corrupt
                   case Absent =>
                     isAdded && store.cartItems == Parsed(MergeAdd([], NewLine(product, selectedColor, selectedSize), ByIdAndSize))
                   case Parsed(items) =>
                     isAdded && store.cartItems == Parsed(MergeAdd(items, NewLine(product, selectedColor, selectedSize), ByIdAndSize))
    {
      error := None;
      if isAdding {
        return;
      }
      if NoSizeChosen(selectedSize) && |product.sizes| > 0 {
        error := Some(SelectSizeError);
        return;
      }
      isAdding := true;
      var cartItems: seq<CartLine>;
      match store.cartItems {
        case Corrupt => return;
        case Absent => cartItems := [];
        case Parsed(items) => cartItems := items;
      }
      var line := NewLine(product, selectedColor, selectedSize);
      var i := FindIndex(cartItems, line, ByIdAndSize);
      FirstMatchUnique(cartItems, line, ByIdAndSize, i);
      if i != -1 {
        cartItems := cartItems[i := cartItems[i].(quantity := cartItems[i].quantity + 1)];
      } else {
        cartItems := cartItems + [line];
      }
      store.cartItems := Parsed(cartItems);
      isAdded := true;
    }

    /** The 1.5 s timer after an accepted add clears both flags. */
    method ResetTimerFired()
      modifies this
      ensures !isAdding && !isAdded && error == old(error)
    {
      isAdding := false;
      isAdded := false;
    }
  }
}
