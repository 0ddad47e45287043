/**
 * The three `getImagePath` helpers (CartItems.tsx, WishlistItems.tsx,
 * ProductCard.tsx): a product's image is `imagePath + "/HomeProduct" + ext`,
 * with `ext` looked up by id in a per-component table and `.jpg` when the id is
 * not in it (`productFormats[id] || '.jpg'`).
 */
module ImagePaths {

  /** The table in CartItems.tsx; ids 10 to 15 are not in it. */
  const CartFormats: map<int, string> := map[
    1 := ".jpeg", 2 := ".webp", 3 := ".webp", 4 := ".webp", 5 := ".webp",
    6 := ".webp", 7 := ".webp", 8 := ".webp", 9 := ".webp",
    16 := ".jpeg", 17 := ".png", 18 := ".jpg", 19 := ".jpeg", 20 := ".png"]

  /** The table in WishlistItems.tsx. */
  const WishlistFormats: map<int, string> := map[
    1 := ".jpeg", 2 := ".webp", 3 := ".webp", 4 := ".webp", 5 := ".webp",
    6 := ".webp", 7 := ".webp", 8 := ".webp", 9 := ".webp",
    10 := ".jpg", 11 := ".jpg", 12 := ".jpg", 13 := ".jpg", 14 := ".jpg", 15 := ".jpg",
    16 := ".jpeg", 17 := ".png", 18 := ".jpg", 19 := ".jpeg", 20 := ".png"]

  /** The table in ProductCard.tsx. */
  const ProductCardFormats: map<int, string> := map[
    1 := ".jpeg", 2 := ".webp", 3 := ".webp", 4 := ".webp", 5 := ".webp",
    6 := ".webp", 7 := ".webp", 8 := ".webp", 9 := ".webp",
    10 := ".jpg", 11 := ".jpg", 12 := ".jpg", 13 := ".jpg", 14 := ".jpg", 15 := ".jpg",
    16 := ".jpeg", 17 := ".png", 18 := ".jpg", 19 := ".jpeg", 20 := ".png"]

  const DefaultFormat := ".jpg"

  /** The placeholder every image component falls back to. */
  const EmptyCartImage := "/images/Empty-cart.jpg"

  predicate IsImageFormat(ext: string) {
    ext == ".jpeg" || ext == ".webp" || ext == ".png" || ext == ".jpg"
  }

  /** `productFormats[id] || '.jpg'`; every value in the tables is a non-empty, truthy string. */
  function FormatFor(table: map<int, string>, id: int): string {
    if id in table then table[id] else DefaultFormat
  }

  function ImagePath(table: map<int, string>, imagePath: string, id: int): string {
    imagePath + "/HomeProduct" + FormatFor(table, id)
  }

  /** CartItems' `getImagePath(item)`. */
  function CartImagePath(imagePath: string, id: int): (r: string)
    ensures exists ext :: IsImageFormat(ext) && r == imagePath + "/HomeProduct" + ext
    ensures (id < 1 || id > 20) ==> r == imagePath + "/HomeProduct.jpg"
  {
    var ext := FormatFor(CartFormats, id);
    assert IsImageFormat(ext);
    ImagePath(CartFormats, imagePath, id)
  }

  /** WishlistItems' `getImagePath(item)`. */
  function WishlistImagePath(imagePath: string, id: int): (r: string)
    ensures exists ext :: IsImageFormat(ext) && r == imagePath + "/HomeProduct" + ext
    ensures (id < 1 || id > 20) ==> r == imagePath + "/HomeProduct.jpg"
  {
    var ext := FormatFor(WishlistFormats, id);
    assert IsImageFormat(ext);
    ImagePath(WishlistFormats, imagePath, id)
  }

  /** ProductCard's `getImagePath()`. */
  function ProductCardImagePath(imagePath: string, id: int): (r: string)
    ensures exists ext :: IsImageFormat(ext) && r == imagePath + "/HomeProduct" + ext
    ensures (id < 1 || id > 20) ==> r == imagePath + "/HomeProduct.jpg"
  {
    var ext := FormatFor(ProductCardFormats, id);
    assert IsImageFormat(ext);
    ImagePath(ProductCardFormats, imagePath, id)
  }

  /**
   * The cart's table lacks ids 10 to 15, but the wishlist table maps them to the
   * default `.jpg`, so both components show the same file for every product.
   */
  lemma CartAndWishlistAgree(imagePath: string, id: int)
    ensures CartImagePath(imagePath, id) == WishlistImagePath(imagePath, id)
  {
    if 10 <= id <= 15 {
      assert id !in CartFormats;
    }
  }

  /** The product card and the wishlist use the same table. */
  lemma ProductCardAndWishlistAgree(imagePath: string, id: int)
    ensures ProductCardImagePath(imagePath, id) == WishlistImagePath(imagePath, id)
  {
    assert ProductCardFormats == WishlistFormats;
  }
}
