# StepStyle storefront, modelled in Dafny

A model of the client-side logic of the StepStyle shoe storefront, a Next.js
application, with proofs about it. The storefront keeps everything in the
browser. The cart, the wishlist, the registered users and the login session
live in `localStorage`; the payment flows, image fallbacks and sign-in forms
are simulated with timers. The model covers these parts:

- **catalogue** (`catalog.dfy`, `product_pages.dfy`): the product cache and its
  queries; the renaming of "Walking" to "Running" used by the product list and
  the home page; the category chips; the nine featured products.
- **cart lines** (`cart.dfy`): removal and quantity change by
  `(id, selectedSize)`, the subtotal, and two add-with-merge rules, one keyed by
  `(id, selectedSize)` and one by `id` alone.
- **add-to-cart and wishlist buttons** (`add_to_cart.dfy`, `wishlist.dfy`):
  classes over a `LocalStore` object (`store.dfy`) that holds each storage key
  as absent, unparseable or parsed.
- **checkout** (`payment_checks.dfy`, `checkout.dfy`):
  - the card-number and expiry formatters;
  - card-network detection;
  - the card and cash-on-delivery checks;
  - the three staged payment flows and the `CartItems` component.
- **image fallbacks** (`image_paths.dfy`, `image_fallback.dfy`, `carousel.dfy`):
  - the `getImagePath` tables;
  - the gallery's extension cycle over its failed set;
  - the image card's format advance;
  - the one-shot fallbacks;
  - the home-page carousel.
- **authentication pages** (`auth_checks.dfy`, `login.dfy`, `signup.dfy`,
  `forgot_password.dfy`): identifier patterns, password and code checks, the
  resend countdown, and the three pages' step machines.

How the environment is represented:

- Every timer callback is an event method. On the login, signup and
  forgot-password pages and in the checkout flow, a `pending` or `job` field
  records which callback is due and what its closure captured, and the event
  requires it. Three events carry no such guard and may be delivered at any
  time: `AddToCart.AddToCartButton.ResetTimerFired`,
  `Wishlist.AddToWishlistButton.ProcessingDone` and
  `Carousel.ImageCarousel.TransitionEnded`. Each only clears flags.
- Random draws are boolean parameters.
- "Now" is a `(year, month)` parameter.
- A failed read of the catalogue file is an `Option` parameter.

Integers are unbounded and prices are integers (rupees).

## Model

| member | source | states |
|---|---|---|
| Catalog.Categories | src/lib/data/index.ts:50 | the mapped list has one category per product, at the same position |
| Catalog.FirstWithId | src/lib/data/index.ts:40 | the index found holds a product with the id and no earlier product has it; none means no product has it |
| Catalog.ProductById | src/lib/data/index.ts:38-41 | none exactly when no product has the id; otherwise a catalogue product with that id (the first one) |
| Catalog.ProductsByCategory | src/lib/data/index.ts:43-46 | exactly the catalogue's products of the category, each of that category |
| Catalog.ProductsByCategoryConcat | src/lib/data/index.ts:45 | the filter distributes over concatenation, so catalogue order is kept |
| Catalog.ProductsByCategoryAbsent | src/lib/data/index.ts:45 | a category no product has selects nothing |
| Catalog.CategoriesMembership | src/lib/data/index.ts:50 | a category is mapped exactly when some product has it |
| Catalog.CategoryList | src/lib/data/index.ts:48-52 | each present category exactly once, nothing else, in order of first appearance |
| Catalog.ProductCatalog.constructor | src/lib/data/index.ts:17 | the cache starts empty |
| Catalog.ProductCatalog.GetProducts | src/lib/data/index.ts:19-36 | a filled cache is returned without reading; a successful read fills it; a failed read returns [] and leaves it empty |
| Catalog.ProductCatalog.GetProductById | src/lib/data/index.ts:38-41 | the query over the products after the cache logic |
| Catalog.ProductCatalog.GetProductsByCategory | src/lib/data/index.ts:43-46 | the filter over the products after the cache logic |
| Catalog.ProductCatalog.GetCategories | src/lib/data/index.ts:48-52 | the distinct categories of the products after the cache logic |
| ProductPages.Recategorize | src/app/products/page.tsx:19-23 | same length; only the category of "Walking" products changes, to "Running"; no result is "Walking" |
| ProductPages.ProductsList | src/app/products/page.tsx:25-27 | no category selects everything recategorised; a category selects exactly its recategorised products |
| ProductPages.WalkingListIsEmpty | src/app/products/page.tsx:19-27 | asking for "Walking" shows nothing |
| ProductPages.Shown | src/app/products/page.tsx:29-46 | the message exactly when the selection is empty, the message being the one for the category asked for; otherwise a grid of the whole selection |
| ProductPages.WalkingShowsMessage | src/app/products/page.tsx:19-37 | a "Walking" link always shows "No shoes found in the Walking category." |
| ProductPages.AllProductsShown | src/app/products/page.tsx:25-46 | with no category, a non-empty catalogue shows all its recategorised products |
| ProductPages.EmptyListMessagesDistinct | src/app/products/page.tsx:32-34 | different categories get different messages, so the message names the category asked for |
| ProductPages.CategoryChips | src/app/products/page.tsx:53 | exactly the categories other than "Walking" |
| ProductPages.CategoryChipsKeepOrder | src/app/products/page.tsx:53 | the chip filter distributes over concatenation, so order is kept |
| ProductPages.Featured | src/app/page.tsx:8-13 | length min(9, n); a prefix of the recategorised list; no "Walking"; only categories differ from the catalogue |
| Cart.RemoveLine | src/components/CartItems.tsx:136-141 | a line survives exactly when it does not have the target's (id, selectedSize) |
| Cart.RemoveLineConcat | src/components/CartItems.tsx:138-141 | removal distributes over concatenation, so surviving lines keep their order |
| Cart.RemoveLineAbsent | src/components/CartItems.tsx:138-141 | removing a key no line has changes nothing |
| Cart.MatchingLines | src/components/CartItems.tsx:139-140 | exactly the lines with the target's key |
| Cart.SetQuantity | src/components/CartItems.tsx:163-169 | same length; matching lines get the new quantity and keep every other field; other lines unchanged |
| Cart.ChangeQuantity | src/components/CartItems.tsx:157-169 | below 1 it is the removal; otherwise same length and only the matching lines' quantities change |
| Cart.SubtotalConcat | src/components/CartItems.tsx:148-151 | the subtotal of a concatenation is the sum of the subtotals |
| Cart.SubtotalAfterRemove | src/components/CartItems.tsx:148-151 | after a removal the subtotal drops by exactly the removed lines' amounts |
| Cart.SubtotalAfterSetQuantity | src/components/CartItems.tsx:176-179 | after a quantity change the matching lines' amounts become price times the new quantity |
| Cart.FirstMatch | src/components/AddToCartButton.tsx:53-57 | the index found matches the key and no earlier line does; none means no line matches |
| Cart.Bump | src/components/AddToCartButton.tsx:61 | same length, and the line at the index gains one in quantity |
| Cart.TotalQuantityConcat | src/components/AddToCartButton.tsx:53-65 | total quantity is additive over concatenation |
| Cart.TotalQuantityBump | src/components/AddToCartButton.tsx:61 | raising one line adds exactly one to the total quantity |
| Cart.MergeAddEffect | src/components/AddToCartButton.tsx:53-68 | an add either raises one existing line by one at the same length or appends the line; other lines unchanged; total quantity grows by one |
| Cart.MergeKeysDiverge | src/components/WishlistItems.tsx:106-119 | with a same-id line of another size, the product page appends while the wishlist raises the existing line |
| Cart.FindIndex | src/components/AddToCartButton.tsx:53-57 | the loop returns the first matching index or -1 |
| Cart.FirstMatchUnique | src/components/AddToCartButton.tsx:53-59 | the loop's result is the one the specification function gives |
| AddToCart.ChosenSize | src/components/AddToCartButton.tsx:48 | the chosen size when truthy; else the first listed size when there is one and it is not 0; else 0 |
| AddToCart.ChosenColor | src/components/AddToCartButton.tsx:47 | the chosen colour when non-empty, else the first listed colour, else "" |
| AddToCart.NewLine | src/components/AddToCartButton.tsx:45-50 | the product's fields with quantity 1 and the chosen size and colour |
| AddToCart.AddToCartButton.constructor | src/components/AddToCartButton.tsx:22-24 | both flags clear and no error |
| AddToCart.AddToCartButton.AddToCart | src/components/AddToCartButton.tsx:26-87 | only reachable for a product in stock, since the button is disabled otherwise; ignored while adding; without a size, the size error and an untouched cart; otherwise the merged cart is stored and the added flag set, and an unparseable cart is left as it is; other storage keys untouched |
| AddToCart.AddToCartButton.ResetTimerFired | src/components/AddToCartButton.tsx:77-80 | both flags cleared |
| Wishlist.RemoveById | src/components/WishlistItems.tsx:86-91 | an entry survives exactly when its id differs |
| Wishlist.RemoveByIdConcat | src/components/WishlistItems.tsx:88 | removal by id distributes over concatenation, so order is kept |
| Wishlist.RemoveByIdAbsent | src/components/WishlistItems.tsx:88 | removing an id no entry has changes nothing |
| Wishlist.WishlistLine | src/components/WishlistItems.tsx:115-118 | the item's fields with quantity 1 and no size or colour |
| Wishlist.WishlistItems.constructor | src/components/WishlistItems.tsx:20-21 | empty list, no failed images |
| Wishlist.WishlistItems.Load | src/components/WishlistItems.tsx:26-38 | nothing stored keeps the list, unparseable text empties it, a parsed list replaces it |
| Wishlist.WishlistItems.RemoveFromWishlist | src/components/WishlistItems.tsx:86-98 | list and storage both become the list without the id |
| Wishlist.WishlistItems.AddToCart | src/components/WishlistItems.tsx:100-135 | the stored cart is merged by id alone; unparseable data reports failure and changes nothing; the wishlist is untouched |
| Wishlist.ToggledMembership | src/components/AddToWishlistButton.tsx:35-45 | after a toggle the product is present exactly when the flag was clear |
| Wishlist.ToggledKeepsOthers | src/components/AddToWishlistButton.tsx:37-42 | entries of other products are unchanged and keep their order |
| Wishlist.TwoTogglesRestorePresence | src/components/AddToWishlistButton.tsx:35-45 | a consistent flag stays consistent, and two toggles restore whether the product is present |
| Wishlist.AddToWishlistButton.constructor | src/components/AddToWishlistButton.tsx:16-17 | both flags clear |
| Wishlist.AddToWishlistButton.CheckMembership | src/components/AddToWishlistButton.tsx:20-24 | nothing stored clears the flag; unparseable text keeps it; otherwise the flag is whether a stored entry has the product's id |
| Wishlist.AddToWishlistButton.Toggle | src/components/AddToWishlistButton.tsx:26-54 | ignored while processing; otherwise the toggled list is stored and the flag flips |
| Wishlist.AddToWishlistButton.ProcessingDone | src/components/AddToWishlistButton.tsx:51-53 | processing cleared |
| ImagePaths.CartImagePath | src/components/CartItems.tsx:107-130 | the path plus "/HomeProduct" plus the cart table's format; ids outside the table get ".jpg" |
| ImagePaths.WishlistImagePath | src/components/WishlistItems.tsx:51-80 | the path plus "/HomeProduct" plus the wishlist table's format, default ".jpg" |
| ImagePaths.ProductCardImagePath | src/components/ProductCard.tsx:16-45 | the path plus "/HomeProduct" plus the card table's format, default ".jpg" |
| ImagePaths.CartAndWishlistAgree | src/components/WishlistItems.tsx:53-77 | for every id the cart and the wishlist show the same file, although ids 10-15 are missing from the cart's table |
| ImagePaths.ProductCardAndWishlistAgree | src/components/ProductCard.tsx:18-39 | the card and the wishlist show the same file for every id |
| PaymentChecks.JoinInFours | src/components/CartItems.tsx:551-552 | empty only for empty input; one separator per full group of four before the last; first and last characters kept |
| PaymentChecks.SpaceEveryFourIsJoin | src/components/CartItems.tsx:551 | the regex replacement is the joined groups, with one trailing space when the last group is full |
| PaymentChecks.TrimmedGrouping | src/components/CartItems.tsx:551-552 | trimming the grouping leaves the joined groups |
| PaymentChecks.JoinInFoursUngroups | src/components/CartItems.tsx:548-553 | removing the spaces from the groups gives the characters back |
| PaymentChecks.FormatCardNumber | src/components/CartItems.tsx:548-554 | at most 19 characters |
| PaymentChecks.FormatIgnoresWhitespace | src/components/CartItems.tsx:550 | inputs with the same non-whitespace characters format alike |
| PaymentChecks.FormatCardNumberShape | src/components/CartItems.tsx:548-554 | with at most 16 non-space characters the output is them grouped in fours, deleting its spaces gives them back, and formatting it again changes nothing |
| PaymentChecks.JoinInFoursGrouped | src/components/CartItems.tsx:551-552 | joining digits in fours gives digit groups of four, the last of one to four |
| PaymentChecks.CardNumberInput | src/components/CartItems.tsx:701-707 | an edit of at most 16 non-whitespace characters, after dropping everything but digits and whitespace, is taken formatted; a longer one leaves the field as it was; the field stays grouped digits |
| PaymentChecks.FormatExpiryDate | src/components/CartItems.tsx:557-562 | at most five characters |
| PaymentChecks.DigitsAfterCleaning | src/components/CartItems.tsx:701-707 | what the card field's filter lets through is digits once whitespace is removed |
| PaymentChecks.FormatExpiryDateShape | src/components/CartItems.tsx:557-562 | the output is up to two digits, MM/Y or MM/YY; its digits are the input's first four digits; formatting it again changes nothing |
| PaymentChecks.DetectNetwork | src/components/CartItems.tsx:88-104 | always one of Visa, Mastercard, American Express, Discover, the unknown-card label or empty |
| PaymentChecks.NetworkRules | src/components/CartItems.tsx:88-104 | on the number without whitespace: Visa exactly for a leading 4, Mastercard for 51-55, American Express for 34 or 37, Discover for 6011 or 65; otherwise Unknown past six characters and empty up to six |
| PaymentChecks.NetworkOfExtended | src/components/CartItems.tsx:91-98 | a named network is decided by a prefix, so longer numbers keep it |
| PaymentChecks.DetectNetworkOfFormatted | src/components/CartItems.tsx:89 | the formatted number has the network of what was typed |
| PaymentChecks.NetworkIgnoresWhitespace | src/components/CartItems.tsx:89 | numbers with the same non-whitespace characters get the same network |
| PaymentChecks.DetectNetworkStable | src/components/CartItems.tsx:91-98 | typing more characters keeps a named network |
| PaymentChecks.CardChecksInOrder | src/components/CartItems.tsx:197-246 | the expired, month, American Express CVV, CVV and name messages each answer exactly when every earlier check passes and that one fails |
| PaymentChecks.CardError | src/components/CartItems.tsx:197-246 | none exactly when the card is acceptable; the card-number message exactly when the digit count is not 15 or 16; the expiry message exactly when the count is right but the expiry is incomplete; otherwise one of the page's card messages (each of the remaining messages is tied to its check by `PaymentChecks.CardChecksInOrder`) |
| PaymentChecks.ExpiryMonthBoundary | src/components/CartItems.tsx:219-227 | an otherwise acceptable card expiring this month passes, and one that expired last month gets the expired message |
| PaymentChecks.FindPincode | src/components/CartItems.tsx:419 | the leftmost word-bounded six-digit run at or after the start, or none |
| PaymentChecks.Pincode | src/components/CartItems.tsx:419 | the six digits of the first match, or none when no match exists |
| PaymentChecks.CodError | src/components/CartItems.tsx:406-423 | none exactly when the trimmed address is non-empty, it has at least 10 characters and it holds a pincode; the missing-address message exactly when it is all whitespace |
| PaymentChecks.CodChecksInOrder | src/components/CartItems.tsx:406-423 | the short-address message exactly when the address is present but under 10 characters; the pincode message exactly when it is present and long enough but holds no word-bounded six-digit run |
| PaymentChecks.AddressWithoutPincodeRejected | src/components/CartItems.tsx:419-423 | a sample street address without a code gets the pincode message |
| PaymentChecks.AddressWithPincodeAccepted | src/components/CartItems.tsx:406-423 | the same address ending in six digits passes, with those digits as the code |
| PaymentChecks.LeftmostPincodeAccepted | src/components/CartItems.tsx:406-423 | a long enough address that starts with a word character and has a match passes |
| PaymentChecks.FindPincodeLeftmost | src/components/CartItems.tsx:419 | any match with none before it is the one found |
| PaymentChecks.SevenDigitRunRejected | src/components/CartItems.tsx:419 | a seven-digit run holds no pincode |
| PaymentChecks.NatDigitsRoundTrip | src/components/CartItems.tsx:332 | reading back the decimal digits of an amount gives the amount |
| PaymentChecks.Decimal | src/components/CartItems.tsx:332 | an amount is written as decimal digits that read back as it, with a minus sign when negative |
| PaymentChecks.DigitsOfSlashed | src/components/CartItems.tsx:559 | the formatter's digit filter drops exactly the slash of a formatted expiry |
| PaymentChecks.SamplePincodeFound | src/components/CartItems.tsx:419 | in a sample street address the code six digits long is found where it starts |
| Checkout.NextStage | src/components/CartItems.tsx:262-312 | each stage schedules a later stage or the outcome, and keeps the captured amount, network and pincode |
| Checkout.WithStatus | src/components/CartItems.tsx:354-362 | a receipt keeps amount and method and gets the new status; no receipt stays none |
| Checkout.LineImage | src/components/CartItems.tsx:599 | the placeholder once the line's path failed, else the path |
| Checkout.LoadedAsWritten | src/components/CartItems.tsx:54-61 | as written: a stored cart replaces the lines but the subtotal is kept |
| Checkout.Loaded | src/components/CartItems.tsx:54-61 | as intended: lines and a recomputed subtotal, so a consistent view stays consistent |
| Checkout.LoadedAsWrittenUndercharges | src/components/CartItems.tsx:60 | as written a loaded 2999 cart is charged 499; as intended, 3498 |
| Checkout.CardStart | src/components/CartItems.tsx:249-262 | an acceptable card starts processing with the verify stage and captured amount and network; otherwise only the message changes |
| Checkout.WalletStart | src/components/CartItems.tsx:316-321 | the connecting message and the opening stage; status and receipt unchanged |
| Checkout.CodStart | src/components/CartItems.tsx:406-441 | an acceptable address starts processing with the captured pincode and a receipt; otherwise only the message changes |
| Checkout.CheckoutFlow | src/components/CartItems.tsx:511-538 | only an idle flow starts, and only for the method chosen; any other method gets "Please select a payment method" |
| Checkout.Advance | src/components/CartItems.tsx:262-268 | a stage shows its message and schedules the next one; the wallet's opening sets processing and its authorisation writes the receipt |
| Checkout.Settle | src/components/CartItems.tsx:270-309 | the draw decides success or failure, the message, and the receipt's status |
| Checkout.CardFlowCharges | src/components/CartItems.tsx:249-290 | an acceptable card runs through its stages to success with a receipt for the captured amount |
| Checkout.ChargesLinesPlusShipping | src/components/CartItems.tsx:279-434 | on a page whose subtotal agrees with its lines, the card, wallet and cash-on-delivery flows each capture the sum of price times quantity plus the 499 shipping charge (`subtotal + shipping`) |
| Checkout.CodFlowConfirms | src/components/CartItems.tsx:406-479 | an acceptable address runs to a confirmed order that records the pincode and delivery estimate |
| Checkout.CartItems.constructor | src/components/CartItems.tsx:16-50 | the initial state: empty cart, method "stripe", status idle, empty fields |
| Checkout.CartItems.LoadCart | src/components/CartItems.tsx:53-76 | the page's view becomes the intended load of the stored cart |
| Checkout.CartItems.RemoveItem | src/components/CartItems.tsx:136-155 | lines and storage drop the target's lines; the subtotal is recomputed and drops by their amounts |
| Checkout.CartItems.ChangeLineQuantity | src/components/CartItems.tsx:157-183 | lines and storage become the quantity change; the subtotal is recomputed |
| Checkout.CartItems.ImageFailed | src/components/CartItems.tsx:132-134 | the path joins the failed set |
| Checkout.CartItems.PaymentMethodChange | src/components/CartItems.tsx:186-194 | the method is chosen, the message cleared, status idle |
| Checkout.CartItems.ResetPaymentStatus | src/components/CartItems.tsx:542-545 | status idle and message cleared |
| Checkout.CartItems.TypeCardNumber | src/components/CartItems.tsx:701-707 | the field becomes the card-number input's result |
| Checkout.CartItems.TypeExpiry | src/components/CartItems.tsx:737-740 | the field becomes the formatted expiry |
| Checkout.CartItems.TypeCvv | src/components/CartItems.tsx:753-759 | digits only, an edit past four digits refused |
| Checkout.CartItems.TypeName | src/components/CartItems.tsx:778 | the name field is set |
| Checkout.CartItems.TypeAddress | src/components/CartItems.tsx:859 | the address field is set |
| Checkout.CartItems.ValidateCardDetails | src/components/CartItems.tsx:197-246 | true exactly for an acceptable card; otherwise the message is `CardError`'s, which is the first failing check's (`PaymentChecks.CardChecksInOrder`) |
| Checkout.CartItems.Checkout | src/components/CartItems.tsx:502-539 | a completed order empties the lines, clears the flag and goes idle; otherwise the flow starts as the checkout function says; the stored cart is untouched |
| Checkout.CartItems.ClearCompletedOrder | src/components/CartItems.tsx:504-508 | lines empty, flag clear, status idle |
| Checkout.CartItems.StartFlow | src/components/CartItems.tsx:511-538 | the flow state becomes the checkout function's result |
| Checkout.CartItems.StageElapsed | src/components/CartItems.tsx:262-268 | the flow state advances by one stage |
| Checkout.CartItems.Settled | src/components/CartItems.tsx:268-309 | the flow state is settled by the draw; only success schedules finalisation; the stored cart is untouched |
| Checkout.CartItems.OrderFinalized | src/components/CartItems.tsx:285-290 | the order is complete and the stored cart is emptied |
| ImageFallback.ExtensionsExclusive | src/components/ProductImages.tsx:34-37 | no source ends with two different extensions |
| ImageFallback.ExtensionIndex | src/components/ProductImages.tsx:35-37 | the index of the extension the source ends with, ignoring case, or none when it ends with none |
| ImageFallback.StripExtension | src/components/ProductImages.tsx:31 | the source without the extension found, or the source itself |
| ImageFallback.NextExtension | src/components/ProductImages.tsx:42 | the next index of the cycle, wrapping after the fourth |
| ImageFallback.Candidate | src/components/ProductImages.tsx:31-48 | a source without a known extension gets ".webp" appended |
| ImageFallback.CandidateAfterExtension | src/components/ProductImages.tsx:31-48 | each known extension, in any case, is replaced by the next of .webp, .jpg, .jpeg, .png, .webp |
| ImageFallback.CandidateDiffers | src/components/ProductImages.tsx:51 | the candidate never equals the source |
| ImageFallback.NamesDistinct | src/components/ProductImages.tsx:34-48 | one base path with two different extensions gives two different names |
| ImageFallback.CandidateEndsWithNext | src/components/ProductImages.tsx:48 | the candidate ends with the next extension |
| ImageFallback.CycleOfFour | src/components/ProductImages.tsx:34-48 | four retries bring a .webp name back to itself |
| ImageFallback.DigitRunLength | src/components/ProductImages.tsx:53 | the length of the greedy digit run |
| ImageFallback.FindProduct | src/components/ProductImages.tsx:53 | the leftmost "Product" followed by a digit, or none |
| ImageFallback.ProductId | src/components/ProductImages.tsx:53 | none exactly when the source has no "Product" plus digit; otherwise "Product" followed by its digits |
| ImageFallback.Fallback | src/components/ProductImages.tsx:53-56 | the placeholder exactly when no product id is found; otherwise that product's HomeProduct.webp |
| ImageFallback.NextSource | src/components/ProductImages.tsx:48-67 | the candidate unless it already failed, then the fallback |
| ImageFallback.HandleImageError | src/components/ProductImages.tsx:24-70 | a failed source changes nothing; otherwise only its slot changes, to the next source; the source joins the failed set |
| ImageFallback.RepeatedErrorIgnored | src/components/ProductImages.tsx:26-28 | a second error for the same source changes nothing |
| ImageFallback.SlotError | src/components/ProductImages.tsx:90 | the error of the image shown in a slot keeps the length |
| ImageFallback.RetryStep | src/components/ProductImages.tsx:24-70 | while later names have not failed, a slot at extension k moves to k+1 and marks the old name |
| ImageFallback.ProductImages.constructor | src/components/ProductImages.tsx:12-14 | images are the slides, nothing failed, first image active |
| ImageFallback.ProductImages.SlidesChanged | src/components/ProductImages.tsx:16-21 | new slides reset images, failed set and active index |
| ImageFallback.ProductImages.SelectImage | src/components/ProductImages.tsx:82-83 | the thumbnail becomes active |
| ImageFallback.ProductImages.ImageError | src/components/ProductImages.tsx:24-70 | the gallery state becomes the handler's result |
| ImageFallback.CardFormatIndex | src/components/ProductImageCard.tsx:25-26 | the index of the format the source ends with, case-sensitively, or none |
| ImageFallback.CardRetrySource | src/components/ProductImageCard.tsx:28-36 | the placeholder, or the base path's home image in a later format |
| ImageFallback.CardRetryOrder | src/components/ProductImageCard.tsx:28-32 | .webp, .jpeg and .jpg advance to the next of .webp, .jpeg, .jpg, .png |
| ImageFallback.CardGivesUp | src/components/ProductImageCard.tsx:33-36 | a .png or unknown source gets the placeholder |
| ImageFallback.CardAndGalleryOrdersDiffer | src/components/ProductImageCard.tsx:24 | after .webp the gallery tries .jpg but the card tries .jpeg |
| ImageFallback.RetryFormat | src/components/ProductImageCard.tsx:20-39 | the error flag is set; an errored state is unchanged; otherwise the retry source |
| ImageFallback.UseFallback | src/components/ClientImage.tsx:30-35 | the error flag is set; an errored state is unchanged; otherwise the fallback |
| ImageFallback.RetryFormatOnce | src/components/ProductImageCard.tsx:21 | later errors change nothing: at most one substitution |
| ImageFallback.UseFallbackOnce | src/components/TeamMemberImage.tsx:21 | later errors change nothing: the fallback is taken once |
| ImageFallback.ProductImageCard.constructor | src/components/ProductImageCard.tsx:17-18 | the source is the prop, no error |
| ImageFallback.ProductImageCard.HandleError | src/components/ProductImageCard.tsx:20-39 | the state becomes the format advance |
| ImageFallback.ClientImage.constructor | src/components/ClientImage.tsx:20-28 | the source is the prop, no error; an omitted fallback is the placeholder |
| ImageFallback.ClientImage.HandleError | src/components/ClientImage.tsx:30-35 | the state becomes the one-shot fallback |
| ImageFallback.TeamMemberImage.constructor | src/components/TeamMemberImage.tsx:17-18 | the source is the prop, no error |
| ImageFallback.TeamMemberImage.HandleError | src/components/TeamMemberImage.tsx:20-25 | the state becomes the one-shot fallback to the product image |
| ImageFallback.ProductCard.constructor | src/components/ProductCard.tsx:13 | no error, so the card shows its image path |
| ImageFallback.ProductCard.Source | src/components/ProductCard.tsx:48-57 | the image path before an error, the placeholder after |
| ImageFallback.ProductCard.ImageFailed | src/components/ProductCard.tsx:62 | the flag is set and the card shows the placeholder |
| Carousel.NextIndex | src/components/ImageCarousel.tsx:25 | stays below n, and wraps from the last slide to 0 |
| Carousel.PreviousIndex | src/components/ImageCarousel.tsx:32 | stays below n: the last slide from the first, otherwise one back |
| Carousel.PreviousAfterNext | src/components/ImageCarousel.tsx:25-32 | previous undoes next |
| Carousel.NextAfterPrevious | src/components/ImageCarousel.tsx:25-32 | next undoes previous |
| Carousel.Advanced | src/components/ImageCarousel.tsx:25 | the index after m moves stays below n |
| Carousel.AdvancedWraps | src/components/ImageCarousel.tsx:25 | up to n moves add m to the index, wrapping once |
| Carousel.FullTurn | src/components/ImageCarousel.tsx:25 | n moves come back to the start |
| Carousel.ImageCarousel.constructor | src/components/ImageCarousel.tsx:11-19 | the given images or the three default slides; index 0, not transitioning |
| Carousel.ImageCarousel.GoToNext | src/components/ImageCarousel.tsx:22-27 | ignored while transitioning; otherwise the next index and the lock set |
| Carousel.ImageCarousel.GoToPrevious | src/components/ImageCarousel.tsx:29-34 | ignored while transitioning; otherwise the previous index and the lock set |
| Carousel.ImageCarousel.GoToSlide | src/components/ImageCarousel.tsx:36-41 | ignored while transitioning or for the current slide; otherwise that slide and the lock set |
| Carousel.ImageCarousel.TransitionEnded | src/components/ImageCarousel.tsx:26 | the lock is released |
| AuthChecks.EmailHasOneAt | src/app/auth/login/page.tsx:22 | an address has exactly one "@" |
| AuthChecks.EmailOrPhoneNotBoth | src/app/auth/login/page.tsx:22-25 | no identifier matches both patterns |
| AuthChecks.ShortestEmailAccepted | src/app/auth/login/page.tsx:22 | a@b.c passes |
| AuthChecks.NoDotNoEmail | src/app/auth/login/page.tsx:22 | text without a "." is no address |
| AuthChecks.Ticked | src/app/auth/login/page.tsx:28-36 | the countdown loses one per tick while positive and stays at 0 |
| AuthChecks.CountdownStopsAtZero | src/app/auth/login/page.tsx:28-36 | after n ticks the countdown is c-n, or 0 once it got there |
| AuthChecks.ResendAfterThirtyTicks | src/app/auth/login/page.tsx:52 | a fresh countdown is positive for 29 ticks and 0 after the thirtieth |
| AuthChecks.NewPasswordError | src/app/auth/forgot-password/page.tsx:104-112 | none exactly when the password is long enough and matches; the length message first, then the mismatch |
| AuthChecks.OtpInput | src/app/auth/login/page.tsx:301-306 | digits only, at most six; an edit past six digits keeps the field |
| AuthChecks.UpdatedType | src/app/auth/signup/page.tsx:21-31 | email for an address, phone for a number, otherwise unchanged |
| AuthChecks.MaskedPhoneShape | src/app/auth/forgot-password/page.tsx:210-212 | a ten-digit number shows as "+91 ", its first five digits, "****" and its last two |
| AuthChecks.MaskedPhonesAlike | src/app/auth/forgot-password/page.tsx:212 | two numbers look alike masked exactly when their first five and last two digits agree |
| Login.PasswordLoginError | src/app/auth/login/page.tsx:87-98 | none exactly when the identifier is valid and the password long enough; the identifier is checked first |
| Login.PhoneAndSixCharactersAccepted | src/app/auth/login/page.tsx:87-98 | a phone number with a six-character password passes |
| Login.LoginPage.constructor | src/app/auth/login/page.tsx:10-18 | password tab, empty fields, countdown 0 |
| Login.LoginPage.TypeIdentifier | src/app/auth/login/page.tsx:11 | the identifier is set |
| Login.LoginPage.TypePassword | src/app/auth/login/page.tsx:12 | the password is set |
| Login.LoginPage.TypeOtp | src/app/auth/login/page.tsx:301-306 | the code becomes the filtered input and stays at most six digits |
| Login.LoginPage.ChoosePasswordTab | src/app/auth/login/page.tsx:146-150 | password tab, code form closed, message cleared |
| Login.LoginPage.ChooseOtpTab | src/app/auth/login/page.tsx:160-163 | code tab, message cleared |
| Login.LoginPage.SendOtp | src/app/auth/login/page.tsx:38-47 | refused with its message for an invalid identifier; otherwise loading and the send timer due |
| Login.LoginPage.OtpSendFinished | src/app/auth/login/page.tsx:48-56 | code form open and the countdown at 30 |
| Login.LoginPage.VerifyOtp | src/app/auth/login/page.tsx:59-68 | refused unless the code has six characters; otherwise the login timer due, with the identifier captured |
| Login.LoginPage.PasswordLogin | src/app/auth/login/page.tsx:87-103 | refused with the first failing check's message; otherwise the login timer due |
| Login.LoginPage.LoginFinished | src/app/auth/login/page.tsx:69-84 | the session flag "true" and the user record with the captured identifier and the path taken |
| Login.LoginPage.Tick | src/app/auth/login/page.tsx:28-36 | one countdown tick |
| Signup.SubmitChecksInOrder | src/app/auth/signup/page.tsx:43-67 | passes exactly when every check does; otherwise the first failing check's message: name, identifier, length, match |
| Signup.NewUser | src/app/auth/signup/page.tsx:115-120 | the identifier goes to email or phone by its type, the other stays empty |
| Signup.Registered | src/app/auth/signup/page.tsx:123-126 | exactly one record appended after the existing ones; absent is the empty list; unparseable is left as it is |
| Signup.RegisteredKeepsEarlierUsers | src/app/auth/signup/page.tsx:122-126 | two registrations keep the earlier users and add both, in order |
| Signup.SignupPage.constructor | src/app/auth/signup/page.tsx:10-19 | details step, email type, empty fields, countdown 0 |
| Signup.SignupPage.TypeName | src/app/auth/signup/page.tsx:176 | the name is set |
| Signup.SignupPage.TypeIdentifier | src/app/auth/signup/page.tsx:192 | the identifier is set and its type updated |
| Signup.SignupPage.TypePassword | src/app/auth/signup/page.tsx:14 | the password is set |
| Signup.SignupPage.TypeConfirmPassword | src/app/auth/signup/page.tsx:15 | the confirmation is set |
| Signup.SignupPage.TypeOtp | src/app/auth/signup/page.tsx:281-286 | the code becomes the filtered input and stays at most six digits |
| Signup.SignupPage.Submit | src/app/auth/signup/page.tsx:43-73 | a failing check shows its message and nothing starts; otherwise loading and the send timer due |
| Signup.SignupPage.OtpSendFinished | src/app/auth/signup/page.tsx:73-81 | the verification step with the countdown at 30 |
| Signup.SignupPage.ResendOtp | src/app/auth/signup/page.tsx:84-89 | loading and the resend timer due |
| Signup.SignupPage.OtpResendFinished | src/app/auth/signup/page.tsx:89-96 | the countdown back at 30 |
| Signup.SignupPage.VerifyOtp | src/app/auth/signup/page.tsx:99-109 | refused unless the code has six characters; otherwise the account timer due, with name, identifier and type captured |
| Signup.SignupPage.AccountCreated | src/app/auth/signup/page.tsx:109-132 | storage holds the registration of the captured record; the page leaves for the login page unless the stored users do not parse, in which case nothing is written and it stays |
| Signup.SignupPage.Back | src/app/auth/signup/page.tsx:335 | back to the details step |
| Signup.SignupPage.ShownDestination | src/app/auth/signup/page.tsx:267-271 | an address in full; a number as fifteen characters showing its first five digits |
| Signup.SignupPage.Tick | src/app/auth/signup/page.tsx:33-41 | one countdown tick |
| ForgotPassword.OnlyVerifiedCodeOpensReset | src/app/auth/forgot-password/page.tsx:93-97 | the reset step is entered only by a verified code |
| ForgotPassword.OnlySentCodeOpensVerification | src/app/auth/forgot-password/page.tsx:57-61 | the verification step is entered only by a sent code |
| ForgotPassword.ForgotPasswordPage.constructor | src/app/auth/forgot-password/page.tsx:10-18 | request step, email type, empty fields, countdown 0 |
| ForgotPassword.ForgotPasswordPage.TypeIdentifier | src/app/auth/forgot-password/page.tsx:20-30 | the identifier is set and its type updated |
| ForgotPassword.ForgotPasswordPage.TypeOtp | src/app/auth/forgot-password/page.tsx:223-228 | the code becomes the filtered input and stays at most six digits |
| ForgotPassword.ForgotPasswordPage.TypeNewPassword | src/app/auth/forgot-password/page.tsx:17 | the new password is set |
| ForgotPassword.ForgotPasswordPage.TypeConfirmPassword | src/app/auth/forgot-password/page.tsx:18 | the confirmation is set |
| ForgotPassword.ForgotPasswordPage.RequestOtp | src/app/auth/forgot-password/page.tsx:42-57 | refused with its message unless the identifier is an address or a ten-digit number; otherwise the send timer due |
| ForgotPassword.ForgotPasswordPage.ResendOtp | src/app/auth/forgot-password/page.tsx:68-73 | loading and the resend timer due |
| ForgotPassword.ForgotPasswordPage.VerifyOtp | src/app/auth/forgot-password/page.tsx:83-93 | refused unless the code has six characters; otherwise the verify timer due |
| ForgotPassword.ForgotPasswordPage.ResetPassword | src/app/auth/forgot-password/page.tsx:101-118 | refused with the first failing password check's message; otherwise the reset timer due |
| ForgotPassword.ForgotPasswordPage.TimerFired | src/app/auth/forgot-password/page.tsx:57-123 | a sent code opens verification with the countdown at 30; a resent one restarts it; a verified code opens reset; a reset leaves for login |
| ForgotPassword.ForgotPasswordPage.Back | src/app/auth/forgot-password/page.tsx:277 | back to the request step |
| ForgotPassword.ForgotPasswordPage.ShownDestination | src/app/auth/forgot-password/page.tsx:209-213 | an address in full; a number as fifteen characters showing its first five digits |
| ForgotPassword.ForgotPasswordPage.Tick | src/app/auth/forgot-password/page.tsx:32-40 | one countdown tick |
| Store.LocalStore.constructor | src/components/CartItems.tsx:56 | every key absent |
| Text.RemoveWhitespace | src/components/CartItems.tsx:89 | no whitespace remains |
| Text.DigitsOnly | src/app/auth/login/page.tsx:302 | only digits remain |
| Text.TrimStart | src/components/CartItems.tsx:407 | the suffix left after the leading whitespace |
| Text.TrimEnd | src/components/CartItems.tsx:407 | the prefix left before the trailing whitespace |
| Text.TrimEmptyIff | src/components/CartItems.tsx:407 | the trim is empty exactly when the text is all whitespace |
| Text.TrimOfTrimmed | src/components/CartItems.tsx:551-552 | text that starts and ends with non-whitespace trims to itself |
| Text.TrimTrailingWhitespace | src/components/CartItems.tsx:551-552 | one more trailing whitespace character does not change the trim |
| Text.ToLower | src/components/ProductImages.tsx:36 | same length, each character lowered |
| Text.EndsWithLowerIsLowerSuffix | src/components/ProductImages.tsx:36 | the character-wise test is the test on the lowered text |
| Text.Take | src/app/auth/forgot-password/page.tsx:212 | the first min(n, length) characters |
| Text.Last | src/app/auth/forgot-password/page.tsx:212 | the last min(n, length) characters |
| Text.DigitInput | src/app/auth/login/page.tsx:301-306 | typed digits within the limit are taken; more than the limit leave the field as it was; the field stays digits within the limit |
| Text.DigitInputIdempotent | src/app/auth/login/page.tsx:301-306 | typing the shown value again changes nothing |
| Seqs.Filter | src/lib/data/index.ts:45 | the elements satisfying the test |
| Seqs.FilterConcat | src/lib/data/index.ts:45 | filtering distributes over concatenation |
| Seqs.FilterMembers | src/lib/data/index.ts:45 | an element is kept exactly when it is present and passes the test |
| Seqs.FilterKeepsAll | src/app/products/page.tsx:25-27 | a test every element passes keeps the whole sequence |
| Seqs.Distinct | src/lib/data/index.ts:50-51 | each element once, in first-appearance order |

## Left out

- Timers are events. Each component has a single pending slot, so a second request while one is pending replaces it. In the source, a second request starts a second timer, and both callbacks run. The model does not capture two callbacks of one component due at once.
- Checkout.CartItems.StartFlow: in the wallet flow the status stays idle while `gPayLoading` is set (src/components/CartItems.tsx:316-321). The Checkout button is disabled only while the status is `processing` (src/components/CartItems.tsx:1041). So a second click during the wallet's first 1.2 s starts a second timer chain in the source. The model's `StartFlow` overwrites `job`, so only the latest chain is kept; interleaved chains are not modelled.
- Text lengths: JavaScript's `.length` counts UTF-16 code units, and Dafny's `|s|` counts characters (Unicode scalar values). They differ for characters outside the Basic Multilingual Plane. The name, password and address length checks use the character count: src/app/auth/signup/page.tsx:46, src/app/auth/login/page.tsx:95, src/app/auth/forgot-password/page.tsx:104, src/components/CartItems.tsx:239 and src/components/CartItems.tsx:413. For example, a name of three emoji has `.length` 6 in the source but `|s|` 3 here. For ASCII input the two agree.
- Random draws (payment outcomes, declines, order and transaction ids, generated codes) are parameters or are not modelled. Transaction ids, timestamps, `loginTime`, `registrationDate` and date formatting are omitted.
- Browser events (`cartUpdated`, `wishlistUpdated`, cross-tab `storage` listeners), toasts, router navigation and rendering are left out. Router navigation appears only as a `redirectedToLogin` flag on the sign-up and reset pages. The login page's move to `/` is not modelled.
- The catalogue read from disk is an input (`load`); reading and parsing the file is not modelled.
- JavaScript numbers are modelled as unbounded integers; fractional prices are not modelled.
- Non-ASCII case folding is not modelled: `toLowerCase` lowers `A`-`Z` only.
- The regexes are character predicates, not a regex engine. `Product\d+`, `\b\d{6}\b` and the email pattern are written out by hand.
- Carousel.ImageCarousel.constructor: an explicitly empty `images` array is excluded by the precondition. In JavaScript it is truthy and leads to `NaN` indices.
- ImageFallback.ProductImages.ImageError: requires a slot index within the list. The handler is only called with the index of a rendered slide.
- Checkout.CartItems.StartFlow and Checkout fix the shape of the expiry text through a precondition. The expiry field is only written by the expiry formatter.
- Cart lines keep only the fields the cart uses. The product fields that `{...product}` copies into a stored line are not modelled.
- `failedImages` keys such as `constructor`, which are present on every JavaScript object, are not modelled.
- Wishlist.AddToWishlistButton.Toggle: unparseable stored text throws inside the handler; the model leaves the store unchanged in that case.
- Signup.Registered: a stored value of `""` is treated as absent, as the truthiness test does.
- The sign-up and reset pages' "Resend" handlers have no countdown guard; their link is only shown once the countdown is over.
- The carousel's five-second auto-advance is the GoToNext event.
- The pages with no logic of their own (navbar, footer, about, contact, account, layout) and the configuration files are not part of this model.

## Findings

| source | as written | input that shows it | evidently intended | confidence | as-written member | corrected member |
|---|---|---|---|---|---|---|
| src/components/CartItems.tsx:60 | `loadCartItems` calls `calculateTotals`, which is defined nowhere. The call throws inside the `try`, so the subtotal of a loaded cart stays 0. | a stored cart with one pair at 2999 on a fresh page: subtotal 0, charge 499 | recompute the subtotal from the loaded lines (charge 3498) | not executed | Checkout.LoadedAsWritten, Checkout.LoadedAsWrittenUndercharges | Checkout.Loaded, Checkout.CartItems.LoadCart |
