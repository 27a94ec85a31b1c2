/**
 * The checkout page (src/pages/Checkout.tsx): the delivery form, the
 * payment request it sends, and the reconciliation of the payment outcome
 * with the order store and the cart.
 */
module Checkout {
  import opened Wrappers
  import opened Text
  import opened Seqs
  import opened PaymentMethods
  import opened Orders
  import Cart
  import Payment

  datatype FormData = FormData(
    fullName: string, email: string, phone: string, address: string, city: string, postalCode: string)

  /** The six inputs of the form, by their `name` attribute. */
  datatype Field = FullName | Email | Phone | Address | City | PostalCode

  /** The form with one field set to `value`. */
  function WithField(f: FormData, field: Field, value: string): FormData {
    match field
    case FullName => f.(fullName := value)
    case Email => f.(email := value)
    case Phone => f.(phone := value)
    case Address => f.(address := value)
    case City => f.(city := value)
    case PostalCode => f.(postalCode := value)
  }

  /** `isFormValid`: each of the five required fields is a non-empty (truthy) string; the postal code is optional. */
  predicate IsFormValid(f: FormData) {
    f.fullName != "" && f.email != "" && f.phone != "" && f.address != "" && f.city != ""
  }

  /** The postal code plays no part in the form's validity. */
  lemma PostalCodeNotRequired(f: FormData, postalCode: string)
    ensures IsFormValid(f.(postalCode := postalCode)) == IsFormValid(f)
  {
  }

  // ---------------------------------------------------------------------
  // The request to the payment endpoint

  function ItemBodyOf(item: Cart.CartItem): Payment.ItemBody {
    Payment.ItemBody(item.id, item.name, item.price as real, item.quantity, item.image)
  }

  function CustomerOf(f: FormData): Payment.CustomerBody {
    Payment.CustomerBody(f.fullName, f.email, f.phone, f.address, f.city, Some(f.postalCode))
  }

  /** The body `handlePayment` posts: the cart total, the chosen method, the whole form and the cart. */
  function RequestOf(cart: seq<Cart.CartItem>, f: FormData, m: PaymentMethod): Payment.RequestBody {
    Payment.RequestBody(Cart.TotalPrice(cart) as real, Name(m), CustomerOf(f), Map(cart, ItemBodyOf))
  }

  /** The page's form check and the endpoint's customer check accept the same forms. */
  lemma FormValidIffCustomerValid(f: FormData)
    ensures IsFormValid(f) <==> Payment.ValidateCustomer(CustomerOf(f)).Some?
  {
  }

  /**
   * Every request the page can send from a cart of positively priced,
   * positive-quantity lines is accepted by the endpoint's validation.
   */
  lemma RequestAccepted(cart: seq<Cart.CartItem>, f: FormData, m: PaymentMethod)
    requires cart != [] && IsFormValid(f)
    requires forall i :: 0 <= i < |cart| ==> cart[i].price > 0 && cart[i].quantity > 0
    ensures Payment.Validate(RequestOf(cart, f, m)).Some?
  {
    forall i | 0 <= i < |cart|
      ensures Cart.LineTotal(cart[i]) > 0
    {
      var p, q := cart[i].price, cart[i].quantity;
      assert p * q >= p;
    }
    Cart.SumOfPositive(cart, Cart.LineTotal);
  }

  // ---------------------------------------------------------------------
  // Payment outcomes and the order they produce

  /** How the payment request ended. */
  datatype PaymentOutcome =
    | Succeeded(orderId: string)  // the response parsed and its `success` was truthy
    | NotSucceeded                // the response parsed and its `success` was falsy
    | Threw(timestamp: nat)       // the request or its JSON decoding threw; `Date.now()` in the handler

  /** The order id made up locally when the request throws: `ORDER-` and the millisecond timestamp. */
  function FallbackOrderId(timestamp: nat): (id: string)
    ensures StartsWith(id, "ORDER-") && |id| > 6
  {
    "ORDER-" + Radix(timestamp, 10)
  }

  /** Fallback ids made at different milliseconds differ. */
  lemma FallbackIdsDistinct(t1: nat, t2: nat)
    requires t1 != t2
    ensures FallbackOrderId(t1) != FallbackOrderId(t2)
  {
    var a, b := FallbackOrderId(t1), FallbackOrderId(t2);
    if a == b {
      assert a[6..] == Radix(t1, 10) && b[6..] == Radix(t2, 10);
      RadixInjective(t1, t2, 10);
    }
  }

  /** The id of the order an outcome saves: the endpoint's on success, the fallback when the request threw. */
  function OrderIdOf(outcome: PaymentOutcome): string
    requires !outcome.NotSucceeded?
  {
    if outcome.Succeeded? then outcome.orderId else FallbackOrderId(outcome.timestamp)
  }

  /** The order both saving branches of `handlePayment` build. */
  function OrderOf(orderId: string, date: string, cart: seq<Cart.CartItem>, f: FormData, m: PaymentMethod): Order {
    Order(orderId, date, cart, Cart.TotalPrice(cart), Pending, m,
          DeliveryAddress(f.fullName, f.address, f.city, f.phone))
  }

  /** What the page renders: the confirmation, the empty-cart notice, or the form with its pay button. */
  datatype Screen = Confirmation | EmptyCart | CheckoutForm(payEnabled: bool)

  class CheckoutPage {
    /** The cart, owned by the application and cleared through `onClearCart`. */
    var cart: seq<Cart.CartItem>
    var form: FormData
    var paymentMethod: PaymentMethod
    var isProcessing: bool
    var orderComplete: bool
    const store: OrderStore

    constructor (cart: seq<Cart.CartItem>, store: OrderStore)
      ensures this.cart == cart && this.store == store
      ensures form == FormData("", "", "", "", "", "") && paymentMethod == Sbp
      ensures !isProcessing && !orderComplete
    {
      this.cart := cart;
      this.store := store;
      form := FormData("", "", "", "", "", "");
      paymentMethod := Sbp;
      isProcessing := false;
      orderComplete := false;
    }

    function Screen(): Screen
      reads this
    {
      if orderComplete then Confirmation
      else if cart == [] then EmptyCart
      else CheckoutForm(IsFormValid(form) && !isProcessing)
    }

    /** The pay button is on screen and enabled. */
    predicate CanPay()
      reads this
      ensures CanPay() <==> !orderComplete && cart != [] && IsFormValid(form) && !isProcessing
    {
      Screen() == CheckoutForm(true)
    }

    /** `handleInputChange`: one input of the form takes a new value. */
    method EditField(field: Field, value: string)
      modifies this
      ensures form == WithField(old(form), field, value)
      ensures cart == old(cart) && paymentMethod == old(paymentMethod)
      ensures isProcessing == old(isProcessing) && orderComplete == old(orderComplete)
    {
      form := WithField(form, field, value);
    }

    /** The payment-method radio group. */
    method ChoosePaymentMethod(m: PaymentMethod)
      modifies this
      ensures paymentMethod == m
      ensures cart == old(cart) && form == old(form)
      ensures isProcessing == old(isProcessing) && orderComplete == old(orderComplete)
    {
      paymentMethod := m;
    }

    /** The delayed completion: processing ends, the confirmation shows, the cart is cleared. */
    method Complete()
      modifies this
      ensures !isProcessing && orderComplete && cart == []
      ensures form == old(form) && paymentMethod == old(paymentMethod)
    {
      isProcessing := false;
      orderComplete := true;
      cart := [];
    }

    /**
     * `handlePayment`, given how the payment request ended and the current
     * time as an ISO string. A successful response and a thrown request each
     * save exactly one order and complete the checkout; a response that
     * parses without success saves nothing and leaves processing on.
     */
    method HandlePayment(outcome: PaymentOutcome, now: string)
      modifies this, store
      ensures form == old(form) && paymentMethod == old(paymentMethod)
      ensures outcome.NotSucceeded? ==>
        && store.cell == old(store.cell)
        && isProcessing && orderComplete == old(orderComplete) && cart == old(cart)
      ensures !outcome.NotSucceeded? ==>
        && store.cell == Storage.Parsed([OrderOf(OrderIdOf(outcome), now, old(cart), form, paymentMethod)] + old(store.Orders()))
        && store.Orders() == [OrderOf(OrderIdOf(outcome), now, old(cart), form, paymentMethod)] + old(store.Orders())
        && |store.Orders()| == |old(store.Orders())| + 1
        && store.Orders()[1..] == old(store.Orders())
        && !isProcessing && orderComplete && cart == []
      ensures !outcome.NotSucceeded? ==>
        var o := store.Orders()[0];
        && o.orderId == (if outcome.Succeeded? then outcome.orderId else FallbackOrderId(outcome.timestamp))
        && o.date == now
        && o.items == old(cart)
        && o.totalAmount == Cart.TotalPrice(old(cart))
        && o.status == Pending
        && o.paymentMethod == paymentMethod
        && o.deliveryAddress == DeliveryAddress(form.fullName, form.address, form.city, form.phone)
      ensures !CanPay()
    {
      isProcessing := true;
      match outcome
      case Succeeded(orderId) =>
        store.SaveOrder(OrderOf(orderId, now, cart, form, paymentMethod));
        Complete();
      case NotSucceeded =>
      case Threw(timestamp) =>
        store.SaveOrder(OrderOf(FallbackOrderId(timestamp), now, cart, form, paymentMethod));
        Complete();
    }

    /** A click on the pay button: it does something only while the button is shown and enabled. */
    method ClickPay(outcome: PaymentOutcome, now: string)
      modifies this, store
      ensures form == old(form) && paymentMethod == old(paymentMethod)
      ensures old(CanPay()) && outcome.NotSucceeded? ==>
        store.cell == old(store.cell) && isProcessing && !orderComplete && cart == old(cart)
      ensures old(CanPay()) && !outcome.NotSucceeded? ==>
        && store.Orders() == [OrderOf(OrderIdOf(outcome), now, old(cart), old(form), old(paymentMethod))] + old(store.Orders())
        && !isProcessing && orderComplete && cart == []
      ensures !old(CanPay()) ==> unchanged(this) && unchanged(store)
      ensures |store.Orders()| <= |old(store.Orders())| + 1
      ensures !CanPay()
    {
      if CanPay() {
        HandlePayment(outcome, now);
      }
    }
  }

  /** However a checkout ends, a second click saves nothing more: at most one order per checkout. */
  method ClickPayTwice(page: CheckoutPage, first: PaymentOutcome, second: PaymentOutcome, now1: string, now2: string)
    modifies page, page.store
    ensures |page.store.Orders()| <= |old(page.store.Orders())| + 1
  {
    page.ClickPay(first, now1);
    page.ClickPay(second, now2);
  }

  /** A response without success leaves the page processing for good: nothing saved, the button stays disabled. */
  method NotSucceededIsStuck(page: CheckoutPage, now: string, later: PaymentOutcome, now2: string)
    requires page.CanPay()
    modifies page, page.store
    ensures page.isProcessing && !page.orderComplete && page.cart == old(page.cart)
    ensures page.store.cell == old(page.store.cell)
  {
    page.ClickPay(NotSucceeded, now);
    page.ClickPay(later, now2);
  }

  /**
   * One stylus line of 350 at quantity 2, the endpoint unreachable at millisecond
   * `failedAt`: a pending order of 700 with the fallback id of that millisecond.
   */
  method UnreachableEndpointScenario(store: OrderStore, failedAt: nat, now: string) returns (page: CheckoutPage)
    modifies store
    ensures |store.Orders()| == |old(store.Orders())| + 1
    ensures store.Orders()[0].totalAmount == 700 && store.Orders()[0].status == Pending
    ensures store.Orders()[0].orderId == FallbackOrderId(failedAt) && store.Orders()[0].date == now
    ensures page.orderComplete && page.cart == []
  {
    var line := OrderItem(1, "stylus", 350, 2, "");
    page := new CheckoutPage([line], store);
    page.EditField(FullName, "A");
    assert page.form == FormData("A", "", "", "", "", "");
    page.EditField(Email, "a@b");
    assert page.form == FormData("A", "a@b", "", "", "", "");
    page.EditField(Phone, "1");
    assert page.form == FormData("A", "a@b", "1", "", "", "");
    page.EditField(Address, "St");
    assert page.form == FormData("A", "a@b", "1", "St", "", "");
    page.EditField(City, "Town");
    assert page.form == FormData("A", "a@b", "1", "St", "Town", "");
    assert page.CanPay();
    Cart.SumOfAppend([], line, Cart.LineTotal);
    assert [] + [line] == [line];
    assert Cart.TotalPrice([line]) == 700;
    page.ClickPay(Threw(failedAt), now);
  }
}
