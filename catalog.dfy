/**
 * The product catalogue of src/lib/data/index.ts: the `Product` record, the
 * module-level cache filled by the first successful load, and the three
 * queries built on it. Reading products.json from disk is an input: each call
 * that may load receives the outcome of that read as `load` (`None` when the
 * read or the JSON parse fails).
 */
module Catalog {
  import opened Wrappers
  import opened Seqs

  datatype Product = Product(
    id: int,
    name: string,
    description: string,
    price: int,
    imagePath: string,
    category: string,
    inStock: bool,
    colors: seq<string>,
    sizes: seq<int>)

  function CategoryOf(p: Product): string { p.category }

  /** `products.map(p => p.category)` */
  function Categories(ps: seq<Product>): (r: seq<string>)
    ensures |r| == |ps|
    ensures forall i :: 0 <= i < |ps| ==> r[i] == ps[i].category
  {
    if ps == [] then [] else [ps[0].category] + Categories(ps[1..])
  }

  /** Index of the first product with `id`, as `Array.prototype.find` scans. */
  function FirstWithId(ps: seq<Product>, id: int): (r: Option<nat>)
    ensures r.Some? ==> r.value < |ps| && ps[r.value].id == id
                        && forall j :: 0 <= j < r.value ==> ps[j].id != id
    ensures r.None? ==> forall j :: 0 <= j < |ps| ==> ps[j].id != id
  {
    if ps == [] then None
    else if ps[0].id == id then Some(0)
    else match FirstWithId(ps[1..], id)
      case None => None
      case Some(k) => Some(k + 1)
  }

  /** `getProductById`'s `find`: the first product with a matching id, or none. */
  function ProductById(ps: seq<Product>, id: int): (r: Option<Product>)
    ensures r.None? <==> forall j :: 0 <= j < |ps| ==> ps[j].id != id
    ensures r.Some? ==> exists k :: 0 <= k < |ps| && ps[k] == r.value && r.value.id == id
                          && forall j :: 0 <= j < k ==> ps[j].id != id
  {
    match FirstWithId(ps, id)
    case None => None
    case Some(k) => Some(ps[k])
  }

  /** `getProductsByCategory`'s `filter`. */
  function ProductsByCategory(ps: seq<Product>, c: string): (r: seq<Product>)
    ensures |r| <= |ps|
    ensures forall p :: p in r <==> p in ps && p.category == c
    ensures forall i :: 0 <= i < |r| ==> r[i].category == c
  {
    if ps == [] then []
    else (if ps[0].category == c then [ps[0]] else []) + ProductsByCategory(ps[1..], c)
  }

  /** The category query keeps catalogue order: it distributes over concatenation. */
  lemma {:induction false} ProductsByCategoryConcat(a: seq<Product>, b: seq<Product>, c: string)
    ensures ProductsByCategory(a + b, c) == ProductsByCategory(a, c) + ProductsByCategory(b, c)
    decreases |a|
  {
    if a == [] {
      assert a + b == b;
    } else {
      assert (a + b)[1..] == a[1..] + b;
      ProductsByCategoryConcat(a[1..], b, c);
    }
  }

  /** A category that no product has selects nothing. */
  lemma {:induction false} ProductsByCategoryAbsent(ps: seq<Product>, c: string)
    requires forall i :: 0 <= i < |ps| ==> ps[i].category != c
    ensures ProductsByCategory(ps, c) == []
    decreases |ps|
  {
    if ps != [] {
      ProductsByCategoryAbsent(ps[1..], c);
    }
  }

  /** A category is listed exactly when some product carries it. */
  lemma CategoriesMembership(ps: seq<Product>, c: string)
    ensures c in Categories(ps) <==> exists k :: 0 <= k < |ps| && ps[k].category == c
  {
    var cats := Categories(ps);
    if c in cats {
      var k :| 0 <= k < |cats| && cats[k] == c;
      assert ps[k].category == c;
    }
  }

  /** `getCategories`: each present category once, in first-appearance order. */
  function CategoryList(ps: seq<Product>): (r: seq<string>)
    ensures forall c :: c in r <==> exists k :: 0 <= k < |ps| && ps[k].category == c
    ensures forall i, j :: 0 <= i < j < |r| ==> r[i] != r[j]
    ensures forall i :: 0 <= i < |r| ==> r[i] in Categories(ps)
    ensures forall i, j :: 0 <= i < j < |r| ==>
              FirstIndex(Categories(ps), r[i]) < FirstIndex(Categories(ps), r[j])
  {
    var cats := Categories(ps);
    forall c ensures c in cats <==> exists k :: 0 <= k < |ps| && ps[k].category == c {
      CategoriesMembership(ps, c);
    }
    Distinct(cats)
  }

  /** The module-level `productsCache`. */
  class ProductCatalog {
    var cache: Option<seq<Product>>

    constructor ()
      ensures cache == None
    {
      cache := None;
    }

    /**
     * `getProducts`: a filled cache is returned without reading; otherwise a
     * successful read fills the cache and a failed one returns `[]` and leaves
     * the cache empty, so that the next call reads again.
     */
    method GetProducts(load: Option<seq<Product>>) returns (ps: seq<Product>)
      modifies this
      ensures old(cache).Some? ==> ps == old(cache).value && cache == old(cache)
      ensures old(cache).None? && load.Some? ==> ps == load.value && cache == load
      ensures old(cache).None? && load.None? ==> ps == [] && cache == None
    {
      if cache.Some? {
        return cache.value;
      }
      match load
      case Some(products) =>
        cache := Some(products);
        ps := products;
      case None =>
        ps := [];
    }

    method GetProductById(id: int, load: Option<seq<Product>>) returns (r: Option<Product>)
      modifies this
      ensures cache == (if old(cache).Some? then old(cache) else load)
      ensures r == ProductById(if cache.Some? then cache.value else [], id)
    {
      var ps := GetProducts(load);
      r := ProductById(ps, id);
    }

    method GetProductsByCategory(c: string, load: Option<seq<Product>>) returns (r: seq<Product>)
      modifies this
      ensures cache == (if old(cache).Some? then old(cache) else load)
      ensures r == ProductsByCategory(if cache.Some? then cache.value else [], c)
    {
      var ps := GetProducts(load);
      r := ProductsByCategory(ps, c);
    }

    method GetCategories(load: Option<seq<Product>>) returns (r: seq<string>)
      modifies this
      ensures cache == (if old(cache).Some? then old(cache) else load)
      ensures r == CategoryList(if cache.Some? then cache.value else [])
    {
      var ps := GetProducts(load);
      r := CategoryList(ps);
    }
  }
}
