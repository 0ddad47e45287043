/**
 * The image components' load-error handlers: the product gallery's extension
 * cycle with its set of failed sources (ProductImages.tsx), the product image
 * card's one-step format advance (ProductImageCard.tsx), the one-shot
 * fallbacks of the about page's images (ClientImage.tsx, TeamMemberImage.tsx)
 * and the product card's error flag (ProductCard.tsx).
 */
module ImageFallback {
  import opened Wrappers
  import opened Text
  import opened Catalog
  import opened ImagePaths

  // ------------------------------------------------ shared file-name suffixes

  /** The extensions the gallery tries, in its order. */
  const Extensions: seq<string> := [".webp", ".jpg", ".jpeg", ".png"]

  /** `s.toLowerCase().endsWith(Extensions[k])`. */
  predicate EndsWithExtension(s: string, k: nat)
    requires k < |Extensions|
  {
    EndsWithLower(s, Extensions[k])
  }

  /** Two suffixes whose second-to-last characters differ cannot both end a text. */
  lemma SuffixesDiffer(s: string, a: string, b: string)
    requires |a| >= 2 && |b| >= 2 && a[|a| - 2] != b[|b| - 2]
    ensures !(EndsWith(s, a) && EndsWith(s, b))
  {
  }

  /**
   * No text ends with two different extensions (their second-to-last letters
   * `b`, `p`, `e`, `n` differ), so "the first extension the text ends with" and
   * "the extension the text ends with" are the same thing.
   */
  lemma ExtensionsExclusive(s: string, i: nat, j: nat)
    requires i < j < |Extensions|
    ensures !(EndsWithExtension(s, i) && EndsWithExtension(s, j))
  {
    SecondToLastLetter(s, i);
    SecondToLastLetter(s, j);
  }

  /** A text ending with extension `k` has that extension's second-to-last letter there. */
  lemma SecondToLastLetter(s: string, k: nat)
    requires k < |Extensions|
    ensures EndsWithExtension(s, k) ==>
              |s| >= 2 && LowerChar(s[|s| - 2]) == Extensions[k][|Extensions[k]| - 2]
  {
    var e := Extensions[k];
    if EndsWithLower(s, e) {
      assert s[|s| - |e| + (|e| - 2)] == s[|s| - 2];
    }
  }

  /** `ext` is extension `k` written in any letter case. */
  predicate SpellsExtension(ext: string, k: nat)
    requires k < |Extensions|
  {
    |ext| == |Extensions[k]| && forall i :: 0 <= i < |ext| ==> LowerChar(ext[i]) == Extensions[k][i]
  }

  /** The extensions themselves are written in lower case. */
  lemma ExtensionsLowerCase(k: nat)
    requires k < |Extensions|
    ensures SpellsExtension(Extensions[k], k)
  {
  }

  // ------------------------------------------------------------ ProductImages

  /**
   * `extensions.findIndex(ext => imageSrc.toLowerCase().endsWith(ext))`, as an
   * option: the extension the source ends with, in any letter case.
   */
  function ExtensionIndex(src: string): (r: Option<nat>)
    ensures r.Some? ==> r.value < |Extensions| && EndsWithExtension(src, r.value)
    ensures r.None? ==> forall k :: 0 <= k < |Extensions| ==> !EndsWithExtension(src, k)
  {
    if EndsWithExtension(src, 0) then Some(0)
    else if EndsWithExtension(src, 1) then Some(1)
    else if EndsWithExtension(src, 2) then Some(2)
    else if EndsWithExtension(src, 3) then Some(3)
    else None
  }

  /**
   * `imageSrc.replace(/\.(webp|jpg|jpeg|png)$/i, '')`. The pattern is anchored
   * at the end and at most one extension can end a text, so it removes exactly
   * the extension `ExtensionIndex` finds.
   */
  function StripExtension(src: string): (r: string)
    ensures ExtensionIndex(src).None? ==> r == src
    ensures ExtensionIndex(src).Some? ==>
              |r| + |Extensions[ExtensionIndex(src).value]| == |src| && r == src[..|r|]
  {
    match ExtensionIndex(src)
    case None => src
    case Some(k) => src[..|src| - |Extensions[k]|]
  }

  /** `(currentExtIndex + 1) % extensions.length`: the next index of the cycle. */
  function NextExtension(k: nat): (n: nat)
    requires k < |Extensions|
    ensures n == if k + 1 < |Extensions| then k + 1 else 0
  {
    (k + 1) % |Extensions|
  }

  /**
   * `newSrc`: the source without its extension, followed by the next extension
   * of the cycle `.webp`, `.jpg`, `.jpeg`, `.png`, `.webp`; a source with no
   * recognised extension gets `.webp` appended.
   */
  function Candidate(src: string): (r: string)
    ensures ExtensionIndex(src).None? ==> r == src + Extensions[0]
  {
    var next := match ExtensionIndex(src) case None => 0 case Some(k) => NextExtension(k);
    StripExtension(src) + Extensions[next]
  }

  /** Each recognised extension, in any letter case, is replaced by the next one of the cycle. */
  lemma CandidateAfterExtension(path: string, ext: string, k: nat)
    requires k < |Extensions| && SpellsExtension(ext, k)
    ensures Candidate(path + ext) == path + Extensions[NextExtension(k)]
  {
    var src := path + ext;
    assert ExtensionIndex(src) == Some(k) by {
      assert EndsWithExtension(src, k) by {
        forall i | 0 <= i < |ext| ensures LowerChar(src[|src| - |ext| + i]) == Extensions[k][i] {
          assert src[|src| - |ext| + i] == ext[i];
        }
      }
      forall j | 0 <= j < k ensures !EndsWithExtension(src, j) {
        ExtensionsExclusive(src, j, k);
      }
    }
    assert StripExtension(src) == path by {
      assert src[..|src| - |Extensions[k]|] == path;
    }
  }

  /**
   * The candidate always differs from the source, so of the handler's guard
   * `imageSrc === newSrc || failedImages[newSrc]` only the second half can hold.
   */
  lemma CandidateDiffers(src: string)
    ensures Candidate(src) != src
  {
    match ExtensionIndex(src)
    case None =>
    case Some(k) =>
      var n := NextExtension(k);
      CandidateEndsWithNext(src, k);
      if k < n { ExtensionsExclusive(src, k, n); } else { ExtensionsExclusive(src, n, k); }
  }

  /** The candidate ends with the next extension of the cycle. */
  lemma CandidateEndsWithNext(src: string, k: nat)
    requires ExtensionIndex(src) == Some(k)
    ensures EndsWithExtension(Candidate(src), NextExtension(k))
  {
    var c, e := Candidate(src), Extensions[NextExtension(k)];
    ExtensionsLowerCase(NextExtension(k));
    forall i | 0 <= i < |e| ensures LowerChar(c[|c| - |e| + i]) == e[i] {
      assert c[|c| - |e| + i] == e[i];
    }
  }

  /** Four retries of a `.webp` source come back to it: the cycle has length four. */
  lemma CycleOfFour(path: string)
    ensures Candidate(Candidate(Candidate(Candidate(path + Extensions[0])))) == path + Extensions[0]
  {
    forall k | 0 <= k < |Extensions| ensures Candidate(path + Extensions[k]) == path + Extensions[NextExtension(k)] {
      ExtensionsLowerCase(k);
      CandidateAfterExtension(path, Extensions[k], k);
    }
  }

  const ProductWord := "Product"

  /** `Product\d` begins at position `i` of `s`. */
  predicate ProductAt(s: string, i: nat) {
    i + |ProductWord| < |s| && s[i..i + |ProductWord|] == ProductWord && IsDigit(s[i + |ProductWord|])
  }

  /** The length of the run of digits starting at `j` (the greedy `\d+`). */
  function DigitRunLength(s: string, j: nat): (n: nat)
    requires j <= |s|
    ensures j + n <= |s| && AllDigits(s[j..j + n]) && (j + n == |s| || !IsDigit(s[j + n]))
    decreases |s| - j
  {
    if j < |s| && IsDigit(s[j]) then
      var n := DigitRunLength(s, j + 1);
      assert s[j..j + 1 + n] == [s[j]] + s[j + 1..j + 1 + n];
      1 + n
    else 0
  }

  /** The leftmost `Product\d` at or after `from`. */
  function FindProduct(s: string, from: nat): (r: Option<nat>)
    ensures r.Some? ==> from <= r.value && ProductAt(s, r.value)
                        && forall j :: from <= j < r.value ==> !ProductAt(s, j)
    ensures r.None? ==> forall j :: from <= j ==> !ProductAt(s, j)
    decreases |s| - from
  {
    if from + |ProductWord| >= |s| then None
    else if ProductAt(s, from) then Some(from)
    else FindProduct(s, from + 1)
  }

  /** `imageSrc.match(/Product\d+/)?.[0]`: `Product` and all the digits after it. */
  function ProductId(src: string): (r: Option<string>)
    ensures r.None? <==> forall j :: 0 <= j ==> !ProductAt(src, j)
    ensures r.Some? ==> |r.value| > |ProductWord| && r.value[..|ProductWord|] == ProductWord
                        && AllDigits(r.value[|ProductWord|..])
  {
    match FindProduct(src, 0)
    case None => None
    case Some(i) =>
      var start := i + |ProductWord|;
      var n := DigitRunLength(src, start);
      var m := src[i..start + n];
      assert m[..|ProductWord|] == src[i..start];
      assert m[|ProductWord|..] == src[start..start + n];
      Some(m)
  }

  /** `fallbackSrc`: the product's home image when the source names a product folder, else the placeholder. */
  function Fallback(src: string): (r: string)
    ensures r == EmptyCartImage <==> ProductId(src).None?
    ensures ProductId(src).Some? ==> r == "/images/" + ProductId(src).value + "/HomeProduct.webp"
  {
    match ProductId(src)
    case None => EmptyCartImage
    case Some(id) => "/images/" + id + "/HomeProduct.webp"
  }

  /**
   * What the handler writes into the slot of a source that has not failed
   * before: the candidate, unless the candidate failed too, then the fallback.
   */
  function NextSource(src: string, failed: set<string>): (r: string)
    ensures Candidate(src) !in failed ==> r == Candidate(src)
    ensures Candidate(src) in failed ==> r == Fallback(src)
  {
    CandidateDiffers(src);
    var candidate := Candidate(src);
    if src == candidate || candidate in failed then Fallback(src) else candidate
  }

  /** The gallery's images and the keys of its `failedImages` record. */
  datatype Gallery = Gallery(images: seq<string>, failed: set<string>)

  /**
   * `handleImageError(imageSrc, index)`: a source already marked failed changes
   * nothing; otherwise slot `index` gets the next source and `imageSrc` is marked.
   */
  function HandleImageError(g: Gallery, src: string, index: nat): (r: Gallery)
    requires index < |g.images|
    ensures |r.images| == |g.images|
    ensures forall j :: 0 <= j < |g.images| && j != index ==> r.images[j] == g.images[j]
    ensures r.failed == g.failed + {src}
    ensures src in g.failed ==> r == g
    ensures src !in g.failed ==> r.images[index] == NextSource(src, g.failed)
  {
    if src in g.failed then g
    else Gallery(g.images[index := NextSource(src, g.failed)], g.failed + {src})
  }

  /** A second error for the same source changes nothing: each source is rewritten at most once. */
  lemma RepeatedErrorIgnored(g: Gallery, src: string, i: nat, j: nat)
    requires i < |g.images| && j < |g.images|
    ensures HandleImageError(HandleImageError(g, src, i), src, j) == HandleImageError(g, src, i)
  {
  }

  /** The error of the source shown in slot `index`. */
  function SlotError(g: Gallery, index: nat): (r: Gallery)
    requires index < |g.images|
    ensures |r.images| == |g.images|
  {
    HandleImageError(g, g.images[index], index)
  }

  /** Different extensions give different names for the same path. */
  lemma NamesDistinct(path: string, i: nat, j: nat)
    requires i < |Extensions| && j < |Extensions| && i != j
    ensures path + Extensions[i] != path + Extensions[j]
  {
    assert (path + Extensions[i])[|path|..] == Extensions[i];
    assert (path + Extensions[j])[|path|..] == Extensions[j];
  }

  /**
   * One of the first three errors of a slot: it moves from extension `k` to
   * `k + 1` and marks the old name, while only earlier names have failed.
   */
  lemma RetryStep(g: Gallery, index: nat, path: string, k: nat)
    requires index < |g.images| && k < |Extensions| - 1
    requires g.images[index] == path + Extensions[k]
    requires path + Extensions[k] !in g.failed && path + Extensions[k + 1] !in g.failed
    ensures SlotError(g, index).images[index] == path + Extensions[k + 1]
    ensures SlotError(g, index).failed == g.failed + {path + Extensions[k]}
  {
    ExtensionsLowerCase(k);
    CandidateAfterExtension(path, Extensions[k], k);
    var src := path + Extensions[k];
    var next := NextSource(src, g.failed);
    assert next == path + Extensions[k + 1];
    assert SlotError(g, index) == Gallery(g.images[index := next], g.failed + {src});
  }

  /** The gallery component: its image list, failed set and active thumbnail. */
  class ProductImages {
    var images: seq<string>
    var failed: set<string>
    var active: nat

    /** The active thumbnail is one of the images, or 0 for an empty gallery. */
    predicate Valid()
      reads this`images, this`active
    {
      active == 0 || active < |images|
    }

    /** The initial state: images are the slides, nothing failed, the first image active. */
    constructor (slides: seq<string>)
      ensures images == slides && failed == {} && active == 0 && Valid()
    {
      images := slides;
      failed := {};
      active := 0;
    }

    /** The `[slides]` effect: new slides replace the images and reset the rest. */
    method SlidesChanged(slides: seq<string>)
      modifies this
      ensures images == slides && failed == {} && active == 0 && Valid()
    {
      images := slides;
      failed := {};
      active := 0;
    }

    /** Hovering over or clicking a thumbnail. */
    method SelectImage(index: nat)
      requires index < |images|
      modifies this`active
      ensures active == index && Valid()
    {
      active := index;
    }

    /** `handleImageError` for the image in slot `index`. */
    method ImageError(src: string, index: nat)
      requires Valid() && index < |images|
      modifies this`images, this`failed
      ensures Gallery(images, failed) == old(HandleImageError(Gallery(images, failed), src, index))
      ensures Valid()
    {
      if src in failed {
        return;
      }
      var next := NextSource(src, failed);
      images := images[index := next];
      failed := failed + {src};
    }
  }

  // --------------------------------------------------------- ProductImageCard

  /** The formats the product image card tries, in its order (not the gallery's). */
  const CardFormats: seq<string> := [".webp", ".jpeg", ".jpg", ".png"]

  /** `formats.find(f => imgSrc.endsWith(f))` and its index; the match is case-sensitive. */
  function CardFormatIndex(src: string): (r: Option<nat>)
    ensures r.Some? ==> r.value < |CardFormats| && EndsWith(src, CardFormats[r.value])
    ensures r.None? ==> forall k :: 0 <= k < |CardFormats| ==> !EndsWith(src, CardFormats[k])
  {
    if EndsWith(src, CardFormats[0]) then Some(0)
    else if EndsWith(src, CardFormats[1]) then Some(1)
    else if EndsWith(src, CardFormats[2]) then Some(2)
    else if EndsWith(src, CardFormats[3]) then Some(3)
    else None
  }

  /** The source the card switches to at its first error. */
  function CardRetrySource(src: string, basePath: string): (r: string)
    ensures r == EmptyCartImage || exists k :: 1 <= k < |CardFormats| && r == basePath + "/HomeProduct" + CardFormats[k]
  {
    match CardFormatIndex(src)
    case Some(k) => if k < |CardFormats| - 1 then basePath + "/HomeProduct" + CardFormats[k + 1] else EmptyCartImage
    case None => EmptyCartImage
  }

  /**
   * A `.webp`, `.jpeg` or `.jpg` source is replaced by the product's home image
   * in the next format of `.webp`, `.jpeg`, `.jpg`, `.png`.
   */
  lemma CardRetryOrder(path: string, basePath: string, k: nat)
    requires k < |CardFormats| - 1
    ensures CardRetrySource(path + CardFormats[k], basePath) == basePath + "/HomeProduct" + CardFormats[k + 1]
  {
    var src := path + CardFormats[k];
    assert src[|path|..] == CardFormats[k];
    forall j | 0 <= j < k ensures !EndsWith(src, CardFormats[j]) {
      SuffixesDiffer(src, CardFormats[j], CardFormats[k]);
    }
    assert CardFormatIndex(src) == Some(k);
  }

  /** A `.png` source, or one in no known format, gives up at once. */
  lemma CardGivesUp(src: string, basePath: string)
    requires forall k :: 0 <= k < |CardFormats| - 1 ==> !EndsWith(src, CardFormats[k])
    ensures CardRetrySource(src, basePath) == EmptyCartImage
  {
  }

  /**
   * The card and the gallery disagree about what follows `.webp`: the gallery
   * tries `.jpg`, the card `.jpeg` — and the card switches to `basePath`'s home
   * image while the gallery keeps the source's own name.
   */
  lemma CardAndGalleryOrdersDiffer(path: string, basePath: string)
    ensures Candidate(path + ".webp") == path + ".jpg"
    ensures CardRetrySource(path + ".webp", basePath) == basePath + "/HomeProduct.jpeg"
  {
    ExtensionsLowerCase(0);
    CandidateAfterExtension(path, Extensions[0], 0);
    CardRetryOrder(path, basePath, 0);
  }

  // ---------------------------------------------------- one-shot image state

  /** An image component's `imgSrc` and `hasError` fields. */
  datatype ImageState = ImageState(src: string, hasError: bool)

  /** ProductImageCard's `handleError`: one format advance, then never again. */
  function RetryFormat(s: ImageState, basePath: string): (r: ImageState)
    ensures r.hasError
    ensures s.hasError ==> r == s
    ensures !s.hasError ==> r.src == CardRetrySource(s.src, basePath)
  {
    if s.hasError then s else ImageState(CardRetrySource(s.src, basePath), true)
  }

  /** ClientImage's and TeamMemberImage's `handleError`: switch to the fallback once. */
  function UseFallback(s: ImageState, fallback: string): (r: ImageState)
    ensures r.hasError
    ensures s.hasError ==> r == s
    ensures !s.hasError ==> r.src == fallback
  {
    if s.hasError then s else ImageState(fallback, true)
  }

  /** However many errors follow, the card makes at most one substitution. */
  lemma RetryFormatOnce(s: ImageState, basePath: string)
    ensures RetryFormat(RetryFormat(s, basePath), basePath) == RetryFormat(s, basePath)
  {
  }

  /** However many errors follow, the fallback is taken at most once. */
  lemma UseFallbackOnce(s: ImageState, fallback: string)
    ensures UseFallback(UseFallback(s, fallback), fallback) == UseFallback(s, fallback)
  {
  }

  class ProductImageCard {
    var imgSrc: string
    var hasError: bool
    const basePath: string

    constructor (src: string, basePath: string)
      ensures imgSrc == src && !hasError && this.basePath == basePath
    {
      imgSrc := src;
      hasError := false;
      this.basePath := basePath;
    }

    method HandleError()
      modifies this`imgSrc, this`hasError
      ensures ImageState(imgSrc, hasError) == RetryFormat(old(ImageState(imgSrc, hasError)), basePath)
    {
      if hasError {
        return;
      }
      imgSrc := CardRetrySource(imgSrc, basePath);
      hasError := true;
    }
  }

  /** ClientImage's default `fallbackSrc`. */
  const DefaultClientFallback := EmptyCartImage

  class ClientImage {
    var imgSrc: string
    var hasError: bool
    const fallbackSrc: string

    /** An omitted `fallbackSrc` (`None`) takes the default. */
    constructor (src: string, fallbackSrc: Option<string>)
      ensures imgSrc == src && !hasError
      ensures this.fallbackSrc == if fallbackSrc.Some? then fallbackSrc.value else DefaultClientFallback
    {
      imgSrc := src;
      hasError := false;
      this.fallbackSrc := if fallbackSrc.Some? then fallbackSrc.value else DefaultClientFallback;
    }

    method HandleError()
      modifies this`imgSrc, this`hasError
      ensures ImageState(imgSrc, hasError) == UseFallback(old(ImageState(imgSrc, hasError)), fallbackSrc)
    {
      if !hasError {
        imgSrc := fallbackSrc;
        hasError := true;
      }
    }
  }

  class TeamMemberImage {
    var imgSrc: string
    var hasError: bool
    const productFallback: string

    constructor (src: string, productFallback: string)
      ensures imgSrc == src && !hasError && this.productFallback == productFallback
    {
      imgSrc := src;
      hasError := false;
      this.productFallback := productFallback;
    }

    method HandleError()
      modifies this`imgSrc, this`hasError
      ensures ImageState(imgSrc, hasError) == UseFallback(old(ImageState(imgSrc, hasError)), productFallback)
    {
      if !hasError {
        imgSrc := productFallback;
        hasError := true;
      }
    }
  }

  // -------------------------------------------------------------- ProductCard

  /** The product card's image: its `getImagePath()` until a load error, the placeholder after. */
  class ProductCard {
    const product: Product
    var imageError: bool

    constructor (product: Product)
      ensures this.product == product && !imageError
      ensures Source() == ProductCardImagePath(product.imagePath, product.id)
    {
      this.product := product;
      imageError := false;
    }

    /** The `src` the card renders. */
    function Source(): (r: string)
      reads this`imageError
      ensures !imageError ==> r == ProductCardImagePath(product.imagePath, product.id)
      ensures imageError ==> r == EmptyCartImage
    {
      if imageError then EmptyCartImage else ProductCardImagePath(product.imagePath, product.id)
    }

    /** `onError={() => setImageError(true)}`: the flag is set and never cleared. */
    method ImageFailed()
      modifies this`imageError
      ensures imageError && Source() == EmptyCartImage
    {
      imageError := true;
    }
  }
}
