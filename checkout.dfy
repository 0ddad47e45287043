/**
 * The cart page's checkout component (src/components/CartItems.tsx): the cart
 * lines with their subtotal, the three payment flows (card, mobile wallet, cash
 * on delivery) and the status they drive.
 *
 * The component's timers are explicit events. `job` records which staged
 * callback of a flow is due next, together with the values its closure
 * captured when the flow started; `finalizeDue` records the pending
 * "order complete" callback that follows a successful payment. The random
 * success and decline draws, and the estimated delivery date, are parameters
 * of the events that consume them.
 */
module Checkout {
  import opened Wrappers
  import opened Text
  import opened Cart
  import opened Store
  import opened ImagePaths
  import opened PaymentChecks

  datatype Status = Idle | Processing | Success | Failed

  /** The receipt's `extraInfo`, filled in by a confirmed cash-on-delivery order. */
  datatype Extra = Extra(pincode: string, estimatedDelivery: string)

  /** `transactionData`, without its generated id and timestamp. */
  datatype Transaction = Transaction(amount: int, methodName: string, status: string, extra: Option<Extra>)

  /**
   * The next pending callback of a payment flow. Each carries what its closure
   * captured: the amount charged, the card network and the card's receipt label, the
   * pincode found in the address.
   */
  datatype Job =
    | NoJob
    | CardVerify(amount: int, network: string, cardLabel: string)
    | CardAuthorize(amount: int, network: string, cardLabel: string)
    | CardOutcome(amount: int, network: string, cardLabel: string)
    | WalletOpen(amount: int)
    | WalletAuthorize(amount: int)
    | WalletOutcome
    | CodCheck(pincode: string)
    | CodPlace(pincode: string)
    | CodOutcome(pincode: string)

  const MerchantUpiId := "soyxbshxikh@okhdfcbank"
  const SelectMethodMessage := "Please select a payment method"
  const GatewayMessage := "Payment gateway error. Please try again later."
  const DeclinedSuffix := " declined. Please check your details or try another payment method."
  const WalletFailedMessage :=
    "Mobile Wallet transaction failed. The payment app returned an error code. Please try again."
  const CodFailedMessage :=
    "Unable to place a Cash on Delivery order for your address. Please verify your address or try a different payment method."

  /** A callback that only moves the flow on to its next stage (no random draw). */
  predicate IsStage(j: Job) {
    j.CardVerify? || j.CardAuthorize? || j.WalletOpen? || j.WalletAuthorize? || j.CodCheck? || j.CodPlace?
  }

  /** The callback each stage schedules: every flow reaches its outcome, and keeps what it captured. */
  function NextStage(j: Job): (r: Job)
    requires IsStage(j)
    ensures StagesLeft(r) < StagesLeft(j)
    ensures !IsStage(r) ==> r.CardOutcome? || r.WalletOutcome? || r.CodOutcome?
    ensures (j.CardVerify? || j.CardAuthorize?) ==>
              (r.CardAuthorize? || r.CardOutcome?) && r.amount == j.amount && r.network == j.network && r.cardLabel == j.cardLabel
    ensures (j.CodCheck? || j.CodPlace?) ==> (r.CodPlace? || r.CodOutcome?) && r.pincode == j.pincode
  {
    match j
    case CardVerify(a, n, l) => CardAuthorize(a, n, l)
    case CardAuthorize(a, n, l) => CardOutcome(a, n, l)
    case WalletOpen(a) => WalletAuthorize(a)
    case WalletAuthorize(_) => WalletOutcome
    case CodCheck(p) => CodPlace(p)
    case CodPlace(p) => CodOutcome(p)
  }

  /** How many staged callbacks remain before the flow's outcome. */
  function StagesLeft(j: Job): nat {
    match j
    case CardVerify(_, _, _) => 2
    case CardAuthorize(_, _, _) => 1
    case WalletOpen(_) => 2
    case WalletAuthorize(_) => 1
    case CodCheck(_) => 2
    case CodPlace(_) => 1
    case _ => 0
  }

  /** The progress message a stage's callback shows. */
  function StageMessage(j: Job): string
    requires IsStage(j)
  {
    match j
    case CardVerify(_, _, _) => "Verifying card details..."
    case CardAuthorize(_, _, _) => "Authorizing payment..."
    case WalletOpen(_) => "Opening secure payment window..."
    case WalletAuthorize(a) => "Authorizing transfer of \U{20B9}" + Decimal(a) + " to " + MerchantUpiId + "..."
    case CodCheck(_) => "Checking delivery availability..."
    case CodPlace(_) => "Placing order..."
  }

  /** The receipt label of a card payment: the network and the last four characters shown. */
  function CardLabel(network: string, cardNumber: string): string {
    network + " Card (****" + Last(cardNumber, 4) + ")"
  }

  /** The transaction's status changed, when there is one (`prev ? {...prev, status} : null`). */
  function WithStatus(t: Option<Transaction>, status: string, extra: Option<Extra>): (r: Option<Transaction>)
    ensures r.None? <==> t.None?
    ensures r.Some? ==> r.value.amount == t.value.amount && r.value.methodName == t.value.methodName
                        && r.value.status == status
  {
    match t
    case None => None
    case Some(x) => Some(x.(status := status, extra := if extra.Some? then extra else x.extra))
  }

  /** The picture shown for a cart line: its path, or the empty-cart picture once that path failed to load. */
  function LineImage(line: CartLine, failed: set<string>): (r: string)
    ensures CartImagePath(line.imagePath, line.id) in failed ==> r == EmptyCartImage
    ensures CartImagePath(line.imagePath, line.id) !in failed ==> r == CartImagePath(line.imagePath, line.id)
  {
    var path := CartImagePath(line.imagePath, line.id);
    if path in failed then EmptyCartImage else path
  }

  /** The items and subtotal as the page holds them. */
  datatype CartView = CartView(items: seq<CartLine>, subtotal: int)

  /** The page's subtotal agrees with its lines whenever it shows any. */
  predicate Consistent(v: CartView) {
    v.items != [] ==> v.subtotal == Subtotal(v.items)
  }

  /**
   * `loadCartItems` as written: a stored cart replaces the items, and then the
   * call of the undefined `calculateTotals` throws inside the `try`, so the
   * subtotal keeps its previous value. An absent or unparseable entry changes nothing.
   */
  function LoadedAsWritten(v: CartView, stored: Stored<seq<CartLine>>): (r: CartView)
    ensures r.subtotal == v.subtotal
    ensures stored.Parsed? ==> r.items == stored.value
    ensures !stored.Parsed? ==> r == v
  {
    match stored
    case Parsed(lines) => CartView(lines, v.subtotal)
    case _ => v
  }

  /** `loadCartItems` as intended: the subtotal is recomputed from the loaded lines. */
  function Loaded(v: CartView, stored: Stored<seq<CartLine>>): (r: CartView)
    ensures Consistent(v) ==> Consistent(r)
    ensures stored.Parsed? ==> r.items == stored.value && r.subtotal == Subtotal(stored.value)
    ensures !stored.Parsed? ==> r == v
  {
    match stored
    case Parsed(lines) => CartView(lines, Subtotal(lines))
    case _ => v
  }

  /**
   * On a fresh page, loading a stored cart with one pair at 2999 leaves the
   * subtotal at 0 as written, so the order total (and the amount every payment
   * flow charges) is the shipping charge alone; the intended load charges 3498.
   */
  lemma LoadedAsWrittenUndercharges()
    ensures var line := CartLine(1, "Runner", 2999, 1, "/images/Product1", Some(9), Some("Black"));
            var stored := Parsed([line]);
            OrderTotal(LoadedAsWritten(CartView([], 0), stored).subtotal) == 499
            && !Consistent(LoadedAsWritten(CartView([], 0), stored))
            && OrderTotal(Loaded(CartView([], 0), stored).subtotal) == 3498
  {
    var line := CartLine(1, "Runner", 2999, 1, "/images/Product1", Some(9), Some("Black"));
    assert Subtotal([line]) == 2999 by {
      assert [line][1..] == [];
    }
  }

  /** The part of the page a payment flow drives: the status, the message line, the receipt and the pending callback. */
  datatype Flow = Flow(status: Status, message: string, transaction: Option<Transaction>, job: Job)

  const ProcessingText := "processing"
  const CodMethodName := "Cash on Delivery"
  const WalletMethodName := "Mobile Wallet"
  const VerifyingAddressMessage := "Verifying delivery address..."
  const ConnectingMessage := "Connecting to Mobile Wallet..."

  /** The message shown while a card payment starts. */
  function CardProcessingMessage(network: string, cardNumber: string): string {
    "Processing " + network + " ending in " + Last(cardNumber, 4) + "..."
  }

  /**
   * `processCardPayment`: an acceptable card starts the flow with the amount,
   * network and label captured; otherwise only the message changes, to the
   * first failing check's.
   */
  function CardStart(number: string, expiry: string, cvv: string, name: string, network: string,
                     amount: int, nowYear: int, nowMonth: int, f: Flow): (r: Flow)
    requires IsFormattedExpiry(expiry)
    ensures CardAcceptable(number, expiry, cvv, name, network, nowYear, nowMonth) ==>
              r == Flow(Processing, CardProcessingMessage(network, number), f.transaction,
                        CardVerify(amount, network, CardLabel(network, number)))
    ensures !CardAcceptable(number, expiry, cvv, name, network, nowYear, nowMonth) ==>
              Some(r.message) == CardError(number, expiry, cvv, name, network, nowYear, nowMonth)
              && r == f.(message := r.message)
  {
    match CardError(number, expiry, cvv, name, network, nowYear, nowMonth)
    case Some(m) => f.(message := m)
    case None =>
      Flow(Processing, CardProcessingMessage(network, number), f.transaction,
           CardVerify(amount, network, CardLabel(network, number)))
  }

  /** `processGooglePayment`: the wallet starts connecting; the status stays as it was. */
  function WalletStart(amount: int, f: Flow): (r: Flow)
    ensures r.status == f.status && r.transaction == f.transaction
    ensures r.message == ConnectingMessage && r.job == WalletOpen(amount)
  {
    f.(message := ConnectingMessage, job := WalletOpen(amount))
  }

  /**
   * `processCODPayment`: an address that passes the checks starts the flow with
   * a receipt in progress and the pincode found; otherwise only the message
   * changes, to the first failing check's.
   */
  function CodStart(address: string, amount: int, f: Flow): (r: Flow)
    ensures CodError(address).None? ==>
              r.status == Processing && r.message == VerifyingAddressMessage
              && r.transaction == Some(Transaction(amount, CodMethodName, ProcessingText, None))
              && Pincode(address).Some? && r.job == CodCheck(Pincode(address).value)
    ensures CodError(address).Some? ==> r == f.(message := CodError(address).value)
  {
    match CodError(address)
    case Some(m) => f.(message := m)
    case None =>
      var pin := Pincode(address);
      Flow(Processing, VerifyingAddressMessage, Some(Transaction(amount, CodMethodName, ProcessingText, None)),
           CodCheck(pin.value))
  }

  /**
   * `handleCheckout` on the flow (when no order is complete): the message is
   * cleared, then the chosen method's flow starts, but only from `Idle`; any
   * other method is refused.
   */
  function CheckoutFlow(paymentMethod: string, number: string, expiry: string, cvv: string, name: string,
                        network: string, address: string, amount: int, nowYear: int, nowMonth: int,
                        f: Flow): (r: Flow)
    requires IsFormattedExpiry(expiry)
    ensures f.status != Idle ==> r == f.(message := r.message)
    ensures paymentMethod !in {"stripe", "gpay", "cod"} ==> r == f.(message := SelectMethodMessage)
    ensures paymentMethod == "stripe" && f.status == Idle ==>
              (r.status == Processing <==> CardAcceptable(number, expiry, cvv, name, network, nowYear, nowMonth))
    ensures paymentMethod == "gpay" && f.status == Idle ==> r.status == Idle && r.job == WalletOpen(amount)
    ensures paymentMethod == "cod" && f.status == Idle ==> (r.status == Processing <==> CodError(address).None?)
  {
    var g := f.(message := "");
    if paymentMethod == "stripe" then
      if f.status == Idle then CardStart(number, expiry, cvv, name, network, amount, nowYear, nowMonth, g) else g
    else if paymentMethod == "gpay" then
      if f.status == Idle then WalletStart(amount, g) else g
    else if paymentMethod == "cod" then
      if f.status == Idle then CodStart(address, amount, g) else g
    else g.(message := SelectMethodMessage)
  }

  /** A staged callback: its message is shown and the next stage is scheduled. */
  function Advance(f: Flow): (r: Flow)
    requires IsStage(f.job)
    ensures r.message == StageMessage(f.job) && r.job == NextStage(f.job)
    ensures r.status == (if f.job.WalletOpen? then Processing else f.status)
    ensures r.transaction == (if f.job.WalletAuthorize? then Some(Transaction(f.job.amount, WalletMethodName, ProcessingText, None))
                              else f.transaction)
  {
    var g := f.(message := StageMessage(f.job), job := NextStage(f.job));
    match f.job
    case WalletOpen(_) => g.(status := Processing)
    case WalletAuthorize(a) => g.(transaction := Some(Transaction(a, WalletMethodName, ProcessingText, None)))
    case _ => g
  }

  /** The callback that draws a flow's outcome. */
  predicate IsOutcome(j: Job) {
    j.CardOutcome? || j.WalletOutcome? || j.CodOutcome?
  }

  /**
   * A flow's last callback, given the success draw, the decline-or-gateway draw
   * (card only) and the delivery date shown (cash on delivery only).
   */
  function Settle(f: Flow, success: bool, declined: bool, estimatedDelivery: string): (r: Flow)
    requires IsOutcome(f.job)
    ensures r.job == NoJob && (r.status == Success <==> success) && (r.status == Failed <==> !success)
    ensures success ==> r.message == ""
    ensures !success && f.job.CardOutcome? ==>
              r.message == (if declined then f.job.network + DeclinedSuffix else GatewayMessage)
    ensures !success && f.job.WalletOutcome? ==> r.message == WalletFailedMessage
    ensures !success && f.job.CodOutcome? ==> r.message == CodFailedMessage
    ensures f.job.CardOutcome? ==>
              r.transaction == Some(Transaction(f.job.amount, f.job.cardLabel, if success then "successful" else "failed", None))
    ensures f.job.WalletOutcome? ==> r.transaction == WithStatus(f.transaction, if success then "successful" else "failed", None)
    ensures f.job.CodOutcome? ==>
              r.transaction == (if success then WithStatus(f.transaction, "confirmed", Some(Extra(f.job.pincode, estimatedDelivery)))
                                else WithStatus(f.transaction, "failed", None))
  {
    var status := if success then Success else Failed;
    match f.job
    case CardOutcome(a, n, l) =>
      Flow(status, if success then "" else if declined then n + DeclinedSuffix else GatewayMessage,
           Some(Transaction(a, l, if success then "successful" else "failed", None)), NoJob)
    case WalletOutcome =>
      Flow(status, if success then "" else WalletFailedMessage,
           WithStatus(f.transaction, if success then "successful" else "failed", None), NoJob)
    case CodOutcome(p) =>
      Flow(status, if success then "" else CodFailedMessage,
           if success then WithStatus(f.transaction, "confirmed", Some(Extra(p, estimatedDelivery)))
           else WithStatus(f.transaction, "failed", None), NoJob)
  }

  /**
   * A card payment from `Idle` run to its end: two staged callbacks, then the
   * outcome, which charges the order total captured at the start under the
   * card's label.
   */
  lemma CardFlowCharges(number: string, expiry: string, cvv: string, name: string, network: string,
                        amount: int, nowYear: int, nowMonth: int, f: Flow, success: bool, declined: bool)
    requires IsFormattedExpiry(expiry) && f.status == Idle
    requires CardAcceptable(number, expiry, cvv, name, network, nowYear, nowMonth)
    ensures var started := CheckoutFlow("stripe", number, expiry, cvv, name, network, "", amount, nowYear, nowMonth, f);
            IsStage(started.job) && IsStage(Advance(started).job) && IsOutcome(Advance(Advance(started)).job)
            && Settle(Advance(Advance(started)), success, declined, "").transaction
               == Some(Transaction(amount, CardLabel(network, number), if success then "successful" else "failed", None))
  {
  }

  /**
   * A cash-on-delivery order from `Idle` run to its end: the confirmed receipt
   * carries the order total and the pincode found in the address.
   */
  lemma CodFlowConfirms(address: string, amount: int, f: Flow, estimatedDelivery: string)
    requires f.status == Idle && CodError(address).None?
    ensures var started := CheckoutFlow("cod", "", "", "", "", "", address, amount, 0, 0, f);
            IsStage(started.job) && IsStage(Advance(started).job) && IsOutcome(Advance(Advance(started)).job)
            && Settle(Advance(Advance(started)), true, false, estimatedDelivery).transaction
               == Some(Transaction(amount, CodMethodName, "confirmed", Some(Extra(Pincode(address).value, estimatedDelivery))))
  {
  }

  /**
   * On a page whose subtotal agrees with its lines, the amount every payment
   * flow captures when it starts is the lines' prices times their quantities,
   * plus the 499 shipping charge.
   */
  lemma ChargesLinesPlusShipping(v: CartView, paymentMethod: string, number: string, expiry: string,
                                 cvv: string, name: string, network: string, address: string,
                                 nowYear: int, nowMonth: int, f: Flow)
    requires Consistent(v) && v.items != []
    requires IsFormattedExpiry(expiry) && f.status == Idle
    ensures var r := CheckoutFlow(paymentMethod, number, expiry, cvv, name, network, address,
                                  OrderTotal(v.subtotal), nowYear, nowMonth, f);
            var charged := Subtotal(v.items) + 499;
            (paymentMethod == "stripe" && CardAcceptable(number, expiry, cvv, name, network, nowYear, nowMonth) ==>
               r.job == CardVerify(charged, network, CardLabel(network, number)))
            && (paymentMethod == "gpay" ==> r.job == WalletOpen(charged))
            && (paymentMethod == "cod" && CodError(address).None? ==>
                  r.transaction == Some(Transaction(charged, CodMethodName, ProcessingText, None)))
  {
  }

  /** The checkout component's state. */
  class CartItems {
    var items: seq<CartLine>
    var subtotal: int
    var failedImages: set<string>
    var paymentMethod: string
    var paymentStatus: Status
    var cardNumber: string
    var expiryDate: string
    var cvv: string
    var name: string
    var gPayLoading: bool
    var orderComplete: bool
    var deliveryAddress: string
    var errorMessage: string
    var transaction: Option<Transaction>
    var job: Job
    var finalizeDue: bool
    const store: LocalStore

    /**
     * What every handler keeps: the input fields hold only what their
     * formatters produce, and the subtotal agrees with the lines it is shown with.
     */
    predicate Valid()
      reads this`cardNumber, this`expiryDate, this`cvv, this`items, this`subtotal
    {
      GroupedCardNumber(cardNumber)
      && IsFormattedExpiry(expiryDate)
      && AllDigits(cvv) && |cvv| <= 4
      && Consistent(CartView(items, subtotal))
    }

    /**
     * `cardNetwork`, which the effect on `cardNumber` recomputes after every
     * change of the number, before any later handler runs.
     */
    function CardNetwork(): string
      reads this`cardNumber
    {
      DetectNetwork(cardNumber)
    }

    constructor (store: LocalStore)
      ensures Valid() && this.store == store
      ensures items == [] && subtotal == 0 && failedImages == {}
      ensures paymentMethod == "stripe" && paymentStatus == Idle
      ensures cardNumber == "" && expiryDate == "" && cvv == "" && name == "" && CardNetwork() == ""
      ensures !gPayLoading && !orderComplete && deliveryAddress == "" && errorMessage == ""
      ensures transaction == None && job == NoJob && !finalizeDue
    {
      items, subtotal, failedImages := [], 0, {};
      paymentMethod, paymentStatus := "stripe", Idle;
      cardNumber, expiryDate, cvv, name := "", "", "", "";
      gPayLoading, orderComplete, deliveryAddress, errorMessage := false, false, "", "";
      transaction, job, finalizeDue := None, NoJob, false;
      this.store := store;
    }

    /** The mount effect and every cross-tab storage event (with the corrected subtotal). */
    method LoadCart()
      requires Valid()
      modifies this`items, this`subtotal
      ensures Valid()
      ensures CartView(items, subtotal) == Loaded(old(CartView(items, subtotal)), store.cartItems)
    {
      var v := Loaded(CartView(items, subtotal), store.cartItems);
      items, subtotal := v.items, v.subtotal;
    }

    /** `handleRemoveItem`: the list, its subtotal and the stored cart all drop the target's lines. */
    method RemoveItem(t: CartLine)
      requires Valid()
      modifies this`items, this`subtotal, store`cartItems
      ensures Valid()
      ensures items == RemoveLine(old(items), t) && store.cartItems == Parsed(items)
      ensures subtotal == Subtotal(items)
      ensures subtotal == Subtotal(old(items)) - Subtotal(MatchingLines(old(items), t))
    {
      var updated := RemoveLine(items, t);
      SubtotalAfterRemove(items, t);
      store.cartItems := Parsed(updated);
      items, subtotal := updated, Subtotal(updated);
    }

    /** `handleQuantityChange`: below 1 a removal, otherwise the target's lines get the new quantity. */
    method ChangeLineQuantity(t: CartLine, q: int)
      requires Valid()
      modifies this`items, this`subtotal, store`cartItems
      ensures Valid()
      ensures items == ChangeQuantity(old(items), t, q) && store.cartItems == Parsed(items)
      ensures subtotal == Subtotal(items)
    {
      if q < 1 {
        RemoveItem(t);
        return;
      }
      var updated := SetQuantity(items, t, q);
      store.cartItems := Parsed(updated);
      items, subtotal := updated, Subtotal(updated);
    }

    /** `handleImageError(path)`: the path joins the failed set. */
    method ImageFailed(path: string)
      modifies this`failedImages
      ensures failedImages == old(failedImages) + {path}
    {
      failedImages := failedImages + {path};
    }

    /** A payment radio's `onChange`: `handlePaymentMethodChange(m)` followed by `resetPaymentStatus()`. */
    method PaymentMethodChange(m: string)
      modifies this`paymentMethod, this`errorMessage, this`paymentStatus
      ensures paymentMethod == m && errorMessage == "" && paymentStatus == Idle
    {
      paymentMethod, errorMessage, paymentStatus := m, "", Idle;
    }

    /** `resetPaymentStatus`, the "try again" button of a failed payment. */
    method ResetPaymentStatus()
      modifies this`errorMessage, this`paymentStatus
      ensures errorMessage == "" && paymentStatus == Idle
    {
      errorMessage, paymentStatus := "", Idle;
    }

    /** The card-number field's `onChange`. */
    method TypeCardNumber(typed: string)
      requires Valid()
      modifies this`cardNumber
      ensures Valid()
      ensures cardNumber == CardNumberInput(old(cardNumber), typed)
    {
      cardNumber := CardNumberInput(cardNumber, typed);
    }

    /** The expiry field's `onChange`. */
    method TypeExpiry(typed: string)
      requires Valid()
      modifies this`expiryDate
      ensures Valid()
      ensures expiryDate == FormatExpiryDate(typed)
    {
      FormatExpiryDateShape(typed);
      expiryDate := FormatExpiryDate(typed);
    }

    /** The CVV field's `onChange`: digits only, at most four. */
    method TypeCvv(typed: string)
      requires Valid()
      modifies this`cvv
      ensures Valid()
      ensures cvv == DigitInput(old(cvv), typed, 4)
    {
      cvv := DigitInput(cvv, typed, 4);
    }

    /** The cardholder name field's `onChange`. */
    method TypeName(typed: string)
      modifies this`name
      ensures name == typed
    {
      name := typed;
    }

    /** The delivery address field's `onChange`. */
    method TypeAddress(typed: string)
      modifies this`deliveryAddress
      ensures deliveryAddress == typed
    {
      deliveryAddress := typed;
    }

    /** `validateCardDetails`: true exactly for an acceptable card; otherwise the first failing check's message. */
    method ValidateCardDetails(nowYear: int, nowMonth: int) returns (ok: bool)
      requires Valid()
      modifies this`errorMessage
      ensures ok <==> CardAcceptable(cardNumber, expiryDate, cvv, name, CardNetwork(), nowYear, nowMonth)
      ensures ok ==> errorMessage == old(errorMessage)
      ensures !ok ==> Some(errorMessage) == CardError(cardNumber, expiryDate, cvv, name, CardNetwork(), nowYear, nowMonth)
    {
      var e := CardError(cardNumber, expiryDate, cvv, name, CardNetwork(), nowYear, nowMonth);
      ok := e.None?;
      if !ok {
        errorMessage := e.value;
      }
    }

    /** The fields a payment flow drives. */
    function FlowState(): Flow
      reads this`paymentStatus, this`errorMessage, this`transaction, this`job
    {
      Flow(paymentStatus, errorMessage, transaction, job)
    }

    /**
     * `handleCheckout`. A completed order is cleared from the page; otherwise the
     * flow moves as `CheckoutFlow` says, charging the order total, and the wallet
     * flow raises the wallet's loading flag. The stored cart is left alone.
     */
    method Checkout(nowYear: int, nowMonth: int)
      requires Valid()
      modifies this`items, this`orderComplete, this`paymentStatus, this`errorMessage, this`transaction,
               this`job, this`gPayLoading
      ensures Valid()
      ensures store.cartItems == old(store.cartItems)
      ensures old(orderComplete) ==>
                items == [] && !orderComplete && gPayLoading == old(gPayLoading)
                && FlowState() == old(FlowState().(status := Idle))
      ensures !old(orderComplete) ==>
                items == old(items) && !orderComplete
                && FlowState() == old(CheckoutFlow(paymentMethod, cardNumber, expiryDate, cvv, name, CardNetwork(),
                                                   deliveryAddress, OrderTotal(subtotal), nowYear, nowMonth, FlowState()))
                && gPayLoading == (old(gPayLoading) || (old(paymentMethod) == "gpay" && old(paymentStatus) == Idle))
    {
      if orderComplete {
        ClearCompletedOrder();
      } else {
        StartFlow(nowYear, nowMonth);
      }
    }

    /** The part of `handleCheckout` that runs once an order is complete. */
    method ClearCompletedOrder()
      requires Valid()
      modifies this`items, this`orderComplete, this`paymentStatus
      ensures Valid()
      ensures items == [] && !orderComplete && paymentStatus == Idle
    {
      items, orderComplete, paymentStatus := [], false, Idle;
    }

    /** The part of `handleCheckout` that runs when no order is complete. */
    method StartFlow(nowYear: int, nowMonth: int)
      requires IsFormattedExpiry(expiryDate)
      modifies this`paymentStatus, this`errorMessage, this`transaction, this`job, this`gPayLoading
      ensures FlowState() == old(CheckoutFlow(paymentMethod, cardNumber, expiryDate, cvv, name, CardNetwork(),
                                              deliveryAddress, OrderTotal(subtotal), nowYear, nowMonth, FlowState()))
      ensures gPayLoading == (old(gPayLoading) || (paymentMethod == "gpay" && old(paymentStatus) == Idle))
    {
      var f := CheckoutFlow(paymentMethod, cardNumber, expiryDate, cvv, name, CardNetwork(),
                            deliveryAddress, OrderTotal(subtotal), nowYear, nowMonth, FlowState());
      if paymentMethod == "gpay" && paymentStatus == Idle {
        gPayLoading := true;
      }
      paymentStatus, errorMessage, transaction, job := f.status, f.message, f.transaction, f.job;
    }

    /** A staged callback fires; the wallet's opening also lowers its loading flag. */
    method StageElapsed()
      requires IsStage(job)
      modifies this`paymentStatus, this`errorMessage, this`transaction, this`job, this`gPayLoading
      ensures FlowState() == old(Advance(FlowState()))
      ensures gPayLoading == (old(gPayLoading) && !old(job).WalletOpen?)
    {
      if job.WalletOpen? {
        gPayLoading := false;
      }
      var f := Advance(FlowState());
      paymentStatus, errorMessage, transaction, job := f.status, f.message, f.transaction, f.job;
    }

    /**
     * A flow's last callback. Success schedules the order completion; neither
     * outcome touches the stored cart.
     */
    method Settled(success: bool, declined: bool, estimatedDelivery: string)
      requires IsOutcome(job)
      modifies this`paymentStatus, this`errorMessage, this`transaction, this`job, this`finalizeDue
      ensures FlowState() == old(Settle(FlowState(), success, declined, estimatedDelivery))
      ensures finalizeDue == (old(finalizeDue) || success)
      ensures store.cartItems == old(store.cartItems)
    {
      var f := Settle(FlowState(), success, declined, estimatedDelivery);
      paymentStatus, errorMessage, transaction, job := f.status, f.message, f.transaction, f.job;
      if success {
        finalizeDue := true;
      }
    }

    /** The callback after a successful payment: the order is complete and the stored cart is emptied. */
    method OrderFinalized()
      requires finalizeDue
      modifies this`orderComplete, this`finalizeDue, store`cartItems
      ensures orderComplete && !finalizeDue && store.cartItems == Parsed([])
    {
      orderComplete, finalizeDue := true, false;
      store.cartItems := Parsed([]);
    }
  }
}
