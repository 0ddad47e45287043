/**
 * Cart lines (the `CartItem` type of src/app/cart/page.tsx) and the list
 * operations that CartItems.tsx, AddToCartButton.tsx and WishlistItems.tsx
 * perform on them: removal and quantity change by `(id, selectedSize)`, the
 * subtotal, and add-with-merge keyed either by `(id, selectedSize)` (the product
 * page's button) or by `id` alone (the wishlist's "add to cart").
 */
module Cart {
  import opened Wrappers

  /**
   * `selectedSize` and `selectedColor` are optional: lines added from the
   * wishlist carry neither (`undefined` in the stored JSON).
   */
  datatype CartLine = CartLine(
    id: int,
    name: string,
    price: int,
    quantity: int,
    imagePath: string,
    selectedSize: Option<int>,
    selectedColor: Option<string>)

  /** The flat shipping charge added to every order. */
  const Shipping := 499

  /** `item.id === target.id && item.selectedSize === target.selectedSize` */
  predicate SameLine(a: CartLine, t: CartLine) {
    a.id == t.id && a.selectedSize == t.selectedSize
  }

  /** `handleRemoveItem`'s `filter`: drops every line with the target's key. */
  function RemoveLine(items: seq<CartLine>, t: CartLine): (r: seq<CartLine>)
    ensures |r| <= |items|
    ensures forall x :: x in r <==> x in items && !SameLine(x, t)
  {
    if items == [] then []
    else (if SameLine(items[0], t) then [] else [items[0]]) + RemoveLine(items[1..], t)
  }

  /** Removal keeps the surviving lines in their order: it distributes over concatenation. */
  lemma {:induction false} RemoveLineConcat(a: seq<CartLine>, b: seq<CartLine>, t: CartLine)
    ensures RemoveLine(a + b, t) == RemoveLine(a, t) + RemoveLine(b, t)
    decreases |a|
  {
    if a == [] {
      assert a + b == b;
    } else {
      assert (a + b)[1..] == a[1..] + b;
      RemoveLineConcat(a[1..], b, t);
    }
  }

  /** Removing a key that no line has leaves the cart as it is. */
  lemma {:induction false} RemoveLineAbsent(items: seq<CartLine>, t: CartLine)
    requires forall i :: 0 <= i < |items| ==> !SameLine(items[i], t)
    ensures RemoveLine(items, t) == items
    decreases |items|
  {
    if items != [] {
      RemoveLineAbsent(items[1..], t);
    }
  }

  /** The lines with the target's key (the ones `handleRemoveItem` drops). */
  function MatchingLines(items: seq<CartLine>, t: CartLine): (r: seq<CartLine>)
    ensures forall x :: x in r <==> x in items && SameLine(x, t)
  {
    if items == [] then []
    else (if SameLine(items[0], t) then [items[0]] else []) + MatchingLines(items[1..], t)
  }

  /** `handleQuantityChange`'s `map`: the matching lines get quantity `q`. */
  function SetQuantity(items: seq<CartLine>, t: CartLine, q: int): (r: seq<CartLine>)
    ensures |r| == |items|
    ensures forall i :: 0 <= i < |items| ==>
              r[i] == if SameLine(items[i], t) then items[i].(quantity := q) else items[i]
  {
    if items == [] then []
    else [if SameLine(items[0], t) then items[0].(quantity := q) else items[0]]
         + SetQuantity(items[1..], t, q)
  }

  /**
   * `handleQuantityChange(target, q)`: below 1 it is a removal; otherwise only
   * the matching lines change, and only in their quantity.
   */
  function ChangeQuantity(items: seq<CartLine>, t: CartLine, q: int): (r: seq<CartLine>)
    ensures q < 1 ==> forall x :: x in r <==> x in items && !SameLine(x, t)
    ensures q >= 1 ==> |r| == |items|
    ensures q >= 1 ==> forall i :: 0 <= i < |items| ==>
              r[i].(quantity := items[i].quantity) == items[i]
              && r[i].quantity == (if SameLine(items[i], t) then q else items[i].quantity)
  {
    if q < 1 then RemoveLine(items, t) else SetQuantity(items, t, q)
  }

  /** `items.reduce((sum, item) => sum + item.price * item.quantity, 0)` */
  function Subtotal(items: seq<CartLine>): int {
    if items == [] then 0 else items[0].price * items[0].quantity + Subtotal(items[1..])
  }

  /** Sum of the unit prices of `items`. */
  function PriceSum(items: seq<CartLine>): int {
    if items == [] then 0 else items[0].price + PriceSum(items[1..])
  }

  /** Sum of the quantities: the number of pairs of shoes in the cart. */
  function TotalQuantity(items: seq<CartLine>): int {
    if items == [] then 0 else items[0].quantity + TotalQuantity(items[1..])
  }

  /** The amount charged: the subtotal plus the fixed shipping charge. */
  function OrderTotal(subtotal: int): int {
    subtotal + Shipping
  }

  lemma {:induction false} SubtotalConcat(a: seq<CartLine>, b: seq<CartLine>)
    ensures Subtotal(a + b) == Subtotal(a) + Subtotal(b)
    decreases |a|
  {
    if a == [] {
      assert a + b == b;
    } else {
      assert (a + b)[1..] == a[1..] + b;
      SubtotalConcat(a[1..], b);
    }
  }

  /** A removal takes exactly the removed lines' amounts off the subtotal. */
  lemma {:induction false} SubtotalAfterRemove(items: seq<CartLine>, t: CartLine)
    ensures Subtotal(RemoveLine(items, t)) == Subtotal(items) - Subtotal(MatchingLines(items, t))
    decreases |items|
  {
    if items != [] {
      SubtotalAfterRemove(items[1..], t);
      var r := RemoveLine(items[1..], t);
      var m := MatchingLines(items[1..], t);
      if SameLine(items[0], t) {
        assert RemoveLine(items, t) == r;
        assert MatchingLines(items, t) == [items[0]] + m;
        assert ([items[0]] + m)[1..] == m;
      } else {
        assert RemoveLine(items, t) == [items[0]] + r;
        assert ([items[0]] + r)[1..] == r;
        assert MatchingLines(items, t) == m;
      }
    }
  }

  /**
   * A quantity change to `q >= 1` replaces the matching lines' amounts by their
   * prices times `q`.
   */
  lemma {:induction false} SubtotalAfterSetQuantity(items: seq<CartLine>, t: CartLine, q: int)
    ensures Subtotal(SetQuantity(items, t, q))
            == Subtotal(items) - Subtotal(MatchingLines(items, t)) + q * PriceSum(MatchingLines(items, t))
    decreases |items|
  {
    if items != [] {
      var head, tail := items[0], items[1..];
      SubtotalAfterSetQuantity(tail, t, q);
      var rest := SetQuantity(tail, t, q);
      assert SetQuantity(items, t, q) == [SetQuantity(items, t, q)[0]] + rest;
      var m := MatchingLines(tail, t);
      if SameLine(head, t) {
        assert MatchingLines(items, t) == [head] + m;
        assert ([head] + m)[1..] == m;
        assert Subtotal(SetQuantity(items, t, q)) == head.price * q + Subtotal(rest);
        assert PriceSum([head] + m) == head.price + PriceSum(m);
        assert Subtotal([head] + m) == head.price * head.quantity + Subtotal(m);
        ReplacedQuantityArithmetic(head.price, head.quantity, q, Subtotal(tail), Subtotal(m), PriceSum(m));
      } else {
        assert MatchingLines(items, t) == m;
      }
    }
  }

  /** The arithmetic step of `SubtotalAfterSetQuantity` for a matching head line. */
  lemma ReplacedQuantityArithmetic(p: int, old_q: int, q: int, tail: int, sm: int, pm: int)
    ensures p * q + (tail - sm + q * pm) == (p * old_q + tail) - (p * old_q + sm) + q * (p + pm)
  {
    assert q * (p + pm) == q * p + q * pm;
  }

  /** Which lines an add merges into. */
  datatype MergeKey =
    | ByIdAndSize   // AddToCartButton: same `id` and same `selectedSize`
    | ById          // WishlistItems: same `id`, whatever the size

  predicate Matches(key: MergeKey, existing: CartLine, line: CartLine) {
    match key
    case ByIdAndSize => existing.id == line.id && existing.selectedSize == line.selectedSize
    case ById => existing.id == line.id
  }

  /** `cartItems.findIndex(...)` as a specification: the first line the key matches. */
  function FirstMatch(items: seq<CartLine>, line: CartLine, key: MergeKey): (r: Option<nat>)
    ensures r.Some? ==> r.value < |items| && Matches(key, items[r.value], line)
                        && forall j :: 0 <= j < r.value ==> !Matches(key, items[j], line)
    ensures r.None? ==> forall j :: 0 <= j < |items| ==> !Matches(key, items[j], line)
  {
    if items == [] then None
    else if Matches(key, items[0], line) then Some(0)
    else match FirstMatch(items[1..], line, key)
      case None => None
      case Some(k) => Some(k + 1)
  }

  /** The line at `i` with its quantity raised by one (`cartItems[i].quantity += 1`). */
  function Bump(items: seq<CartLine>, i: nat): (r: seq<CartLine>)
    requires i < |items|
    ensures |r| == |items| && r[i].quantity == items[i].quantity + 1
  {
    items[i := items[i].(quantity := items[i].quantity + 1)]
  }

  /** Add-with-merge: raise the first matching line by one, or append `line`. */
  function MergeAdd(items: seq<CartLine>, line: CartLine, key: MergeKey): seq<CartLine> {
    match FirstMatch(items, line, key)
    case Some(i) => Bump(items, i)
    case None => items + [line]
  }

  lemma {:induction false} TotalQuantityConcat(a: seq<CartLine>, b: seq<CartLine>)
    ensures TotalQuantity(a + b) == TotalQuantity(a) + TotalQuantity(b)
    decreases |a|
  {
    if a == [] {
      assert a + b == b;
    } else {
      assert (a + b)[1..] == a[1..] + b;
      TotalQuantityConcat(a[1..], b);
    }
  }

  lemma {:induction false} TotalQuantityBump(items: seq<CartLine>, i: nat)
    requires i < |items|
    ensures TotalQuantity(Bump(items, i)) == TotalQuantity(items) + 1
    decreases i
  {
    if i > 0 {
      TotalQuantityBump(items[1..], i - 1);
      assert Bump(items, i)[1..] == Bump(items[1..], i - 1);
    }
  }

  /**
   * An accepted add of a quantity-1 line: either one existing line rises by
   * exactly one and the length is kept, or the line is appended at the end;
   * every other line is unchanged and the total quantity grows by exactly one.
   */
  lemma MergeAddEffect(items: seq<CartLine>, line: CartLine, key: MergeKey)
    requires line.quantity == 1
    ensures var r := MergeAdd(items, line, key);
            TotalQuantity(r) == TotalQuantity(items) + 1
            && match FirstMatch(items, line, key)
               case Some(i) =>
                 |r| == |items| && r[i] == items[i].(quantity := items[i].quantity + 1)
                 && forall j :: 0 <= j < |items| && j != i ==> r[j] == items[j]
               case None =>
                 r == items + [line]
  {
    match FirstMatch(items, line, key)
    case Some(i) =>
      TotalQuantityBump(items, i);
    case None =>
      TotalQuantityConcat(items, [line]);
      assert TotalQuantity([line]) == 1;
  }

  /**
   * The two merge keys disagree: when some line has the new line's id but
   * none has its size too, the product page appends a line while the wishlist
   * raises an existing one.
   */
  lemma MergeKeysDiverge(items: seq<CartLine>, line: CartLine, k: nat)
    requires k < |items| && items[k].id == line.id
    requires forall j :: 0 <= j < |items| ==> items[j].selectedSize != line.selectedSize
    ensures |MergeAdd(items, line, ByIdAndSize)| == |items| + 1
    ensures |MergeAdd(items, line, ById)| == |items|
  {
    assert Matches(ById, items[k], line);
  }

  /**
   * The loop behind `findIndex`: the first index whose line the key matches,
   * or -1.
   */
  method FindIndex(items: seq<CartLine>, line: CartLine, key: MergeKey) returns (i: int)
    ensures -1 <= i < |items|
    ensures i >= 0 ==> Matches(key, items[i], line)
                       && forall j :: 0 <= j < i ==> !Matches(key, items[j], line)
    ensures i == -1 ==> forall j :: 0 <= j < |items| ==> !Matches(key, items[j], line)
  {
    var k := 0;
    while k < |items|
      invariant 0 <= k <= |items|
      invariant forall j :: 0 <= j < k ==> !Matches(key, items[j], line)
    {
      if Matches(key, items[k], line) {
        return k;
      }
      k := k + 1;
    }
    return -1;
  }

  /** The index `FindIndex` returns is the one `FirstMatch` specifies. */
  lemma FirstMatchUnique(items: seq<CartLine>, line: CartLine, key: MergeKey, i: int)
    requires -1 <= i < |items|
    requires i >= 0 ==> Matches(key, items[i], line)
                        && forall j :: 0 <= j < i ==> !Matches(key, items[j], line)
    requires i == -1 ==> forall j :: 0 <= j < |items| ==> !Matches(key, items[j], line)
    ensures FirstMatch(items, line, key) == if i >= 0 then Some(i) else None
  {
  }
}
