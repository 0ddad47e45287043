/**
 * The two catalogue pages: src/app/products/page.tsx (all products or one
 * category, with the category chips) and src/app/page.tsx (the featured grid).
 * Both first rename the category "Walking" to "Running".
 */
module ProductPages {
  import opened Catalog
  import opened Seqs
  import opened Text

  const Walking := "Walking"
  const Running := "Running"
  const FeaturedCount := 9

  function Recategorized(p: Product): Product {
    if p.category == Walking then p.(category := Running) else p
  }

  /** The `map` shared by both pages: only the category of "Walking" products changes. */
  function Recategorize(ps: seq<Product>): (r: seq<Product>)
    ensures |r| == |ps|
    ensures forall i :: 0 <= i < |ps| ==> r[i].(category := ps[i].category) == ps[i]
    ensures forall i :: 0 <= i < |ps| ==> ps[i].category != Walking ==> r[i] == ps[i]
    ensures forall i :: 0 <= i < |ps| ==> ps[i].category == Walking ==> r[i].category == Running
    ensures forall i :: 0 <= i < |r| ==> r[i].category != Walking
  {
    if ps == [] then [] else [Recategorized(ps[0])] + Recategorize(ps[1..])
  }

  /**
   * `ProductsList`'s selection: with a category (a truthy query string) exactly
   * the recategorised products of that category, otherwise all of them.
   */
  function ProductsList(ps: seq<Product>, category: string): (r: seq<Product>)
    ensures category == "" ==> r == Recategorize(ps)
    ensures category != "" ==> forall p :: p in r <==> p in Recategorize(ps) && p.category == category
  {
    if category != "" then ProductsByCategory(Recategorize(ps), category) else Recategorize(ps)
  }

  /** Asking for "Walking" shows nothing: no recategorised product is in it. */
  lemma WalkingListIsEmpty(ps: seq<Product>)
    ensures ProductsList(ps, Walking) == []
  {
    ProductsByCategoryAbsent(Recategorize(ps), Walking);
  }

  const EmptyPrefix := "No shoes found in the "
  const EmptySuffix := " category."
  const NoShoesMessage := "No shoes found."

  /** The message shown when the selection is empty. */
  function EmptyListMessage(category: string): string {
    if category != "" then EmptyPrefix + category + EmptySuffix else NoShoesMessage
  }

  /** What `ProductsList` renders: a message, or the grid of the selected products. */
  datatype Listing = NoShoes(message: string) | Grid(products: seq<Product>)

  /**
   * `ProductsList`'s output: the page shows the message exactly when the
   * selection is empty, and otherwise a grid of the whole selection.
   */
  function Shown(ps: seq<Product>, category: string): (v: Listing)
    ensures v.NoShoes? <==> ProductsList(ps, category) == []
    ensures v.NoShoes? ==> v.message == EmptyListMessage(category)
    ensures v.Grid? ==> v.products == ProductsList(ps, category) && |v.products| > 0
  {
    var products := ProductsList(ps, category);
    if |products| == 0 then NoShoes(EmptyListMessage(category)) else Grid(products)
  }

  /** A "Walking" link always shows the category message, never a grid. */
  lemma WalkingShowsMessage(ps: seq<Product>)
    ensures Shown(ps, Walking) == NoShoes("No shoes found in the Walking category.")
  {
    WalkingListIsEmpty(ps);
  }

  /** With no category, a non-empty catalogue shows every product. */
  lemma AllProductsShown(ps: seq<Product>)
    requires ps != []
    ensures Shown(ps, "") == Grid(Recategorize(ps)) && |Shown(ps, "").products| == |ps|
  {
  }

  /** The message names the category it was shown for: two categories never share one. */
  lemma EmptyListMessagesDistinct(a: string, b: string)
    requires a != b
    ensures EmptyListMessage(a) != EmptyListMessage(b)
  {
    var ma, mb := EmptyListMessage(a), EmptyListMessage(b);
    if a != "" && b != "" && |a| == |b| {
      var k := |EmptyPrefix|;
      assert ma[k..k + |a|] == a;
      assert mb[k..k + |b|] == b;
    }
  }

  predicate IsChip(c: string) { c != Walking }

  /** The chips: the categories without "Walking", order kept. */
  function CategoryChips(categories: seq<string>): (r: seq<string>)
    ensures forall c :: c in r <==> c in categories && c != Walking
  {
    FilterMembers(categories, IsChip);
    Filter(categories, IsChip)
  }

  lemma CategoryChipsKeepOrder(a: seq<string>, b: seq<string>)
    ensures CategoryChips(a + b) == CategoryChips(a) + CategoryChips(b)
  {
    FilterConcat(a, b, IsChip);
  }

  /** The home page's `slice(0, 9)` of the recategorised catalogue. */
  function Featured(ps: seq<Product>): (r: seq<Product>)
    ensures |r| == Min(FeaturedCount, |ps|)
    ensures r == Recategorize(ps)[..|r|]
    ensures forall i :: 0 <= i < |r| ==> r[i].category != Walking
    ensures forall i :: 0 <= i < |r| ==> r[i].(category := ps[i].category) == ps[i]
  {
    Recategorize(ps)[..Min(FeaturedCount, |ps|)]
  }
}
