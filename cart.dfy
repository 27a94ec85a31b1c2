/**
 * The shopping cart of the storefront page (src/pages/Index.tsx): each
 * operation is the pure `prev => next` update the page hands to `setCart`,
 * and the two totals are left folds over the lines.
 */
module Cart {
  import opened Wrappers
  import opened Seqs
  import Orders

  /** A catalogue entry. */
  datatype Product = Product(id: int, name: string, category: string, price: int, image: string, badge: Option<string>)

  /** A cart line: a product's id, name, price and image with a quantity, the shape an order stores. */
  type CartItem = Orders.OrderItem

  /** No line has a quantity at or below zero. */
  predicate PositiveQuantities(cart: seq<CartItem>) {
    forall i :: 0 <= i < |cart| ==> cart[i].quantity > 0
  }

  /** At most one line per product id. */
  predicate DistinctIds(cart: seq<CartItem>) {
    forall i, j :: 0 <= i < j < |cart| ==> cart[i].id != cart[j].id
  }

  /** The cart invariant: positive quantities, one line per product. */
  predicate WellFormed(cart: seq<CartItem>) {
    PositiveQuantities(cart) && DistinctIds(cart)
  }

  /** `cart.find(item => item.id === id)`: the first line with that id, if any. */
  function Find(cart: seq<CartItem>, id: int): (r: Option<CartItem>)
    ensures r.None? <==> forall i :: 0 <= i < |cart| ==> cart[i].id != id
    ensures r.Some? ==> exists k :: 0 <= k < |cart| && cart[k] == r.value && r.value.id == id
                                    && forall j :: 0 <= j < k ==> cart[j].id != id
  {
    if cart == [] then None
    else if cart[0].id == id then Some(cart[0])
    else
      var r := Find(cart[1..], id);
      assert r.Some? ==> exists k :: 1 <= k < |cart| && cart[k] == r.value && r.value.id == id
                                     && forall j :: 1 <= j < k ==> cart[j].id != id;
      r
  }

  /** The line `addToCart` makes for a product not yet in the cart. */
  function NewLine(p: Product): CartItem {
    Orders.OrderItem(p.id, p.name, p.price, 1, p.image)
  }

  function Bump(item: CartItem, id: int): CartItem {
    if item.id == id then item.(quantity := item.quantity + 1) else item
  }

  function AddToCart(cart: seq<CartItem>, p: Product): seq<CartItem> {
    if Find(cart, p.id).Some? then Map(cart, (item: CartItem) => Bump(item, p.id))
    else cart + [NewLine(p)]
  }

  function RemoveFromCart(cart: seq<CartItem>, id: int): seq<CartItem> {
    Filter(cart, (item: CartItem) => item.id != id)
  }

  /** The quantity change of one line: applied only when the result stays positive. */
  function Adjust(item: CartItem, id: int, delta: int): CartItem {
    if item.id == id then
      var q := item.quantity + delta;
      if q > 0 then item.(quantity := q) else item
    else item
  }

  function UpdateQuantity(cart: seq<CartItem>, id: int, delta: int): seq<CartItem> {
    Filter(Map(cart, (item: CartItem) => Adjust(item, id, delta)), (item: CartItem) => item.quantity > 0)
  }

  // ---------------------------------------------------------------------
  // Totals

  function LineTotal(item: CartItem): int {
    item.price * item.quantity
  }

  function LineQuantity(item: CartItem): int {
    item.quantity
  }

  /** `cart.reduce((sum, item) => sum + f(item), 0)`. */
  function SumOf(cart: seq<CartItem>, f: CartItem -> int): int {
    if cart == [] then 0 else SumOf(cart[..|cart| - 1], f) + f(cart[|cart| - 1])
  }

  function TotalPrice(cart: seq<CartItem>): int {
    SumOf(cart, LineTotal)
  }

  function TotalItems(cart: seq<CartItem>): int {
    SumOf(cart, LineQuantity)
  }

  /** Adding a line at the end adds its amount to the sum. */
  lemma SumOfAppend(cart: seq<CartItem>, x: CartItem, f: CartItem -> int)
    ensures SumOf(cart + [x], f) == SumOf(cart, f) + f(x)
  {
    assert (cart + [x])[..|cart|] == cart;
  }

  /** Replacing one line changes the sum by the difference of the two lines' amounts. */
  lemma {:induction false} SumOfUpdate(cart: seq<CartItem>, k: nat, x: CartItem, f: CartItem -> int)
    requires k < |cart|
    ensures SumOf(cart[k := x], f) == SumOf(cart, f) - f(cart[k]) + f(x)
  {
    var n := |cart| - 1;
    if k < n {
      assert cart[k := x][..n] == cart[..n][k := x];
      SumOfUpdate(cart[..n], k, x, f);
    } else {
      assert cart[k := x][..n] == cart[..n];
    }
  }

  /** A sum of positive amounts over a non-empty cart is positive. */
  lemma {:induction false} SumOfPositive(cart: seq<CartItem>, f: CartItem -> int)
    requires cart != []
    requires forall i :: 0 <= i < |cart| ==> f(cart[i]) > 0
    ensures SumOf(cart, f) > 0
  {
    if |cart| > 1 {
      SumOfPositive(cart[..|cart| - 1], f);
    }
  }

  /** An empty cart costs nothing and holds nothing. */
  lemma TotalsOfEmpty()
    ensures TotalPrice([]) == 0 && TotalItems([]) == 0
  {
  }

  // ---------------------------------------------------------------------
  // addToCart

  /** A product already in the cart: its line gains one unit, every other line is unchanged. */
  lemma AddExisting(cart: seq<CartItem>, p: Product)
    requires exists k :: 0 <= k < |cart| && cart[k].id == p.id
    ensures var r := AddToCart(cart, p);
      && |r| == |cart|
      && (forall i :: 0 <= i < |cart| && cart[i].id == p.id ==> r[i] == cart[i].(quantity := cart[i].quantity + 1))
      && (forall i :: 0 <= i < |cart| && cart[i].id != p.id ==> r[i] == cart[i])
  {
  }

  /** A product not in the cart: one line with quantity 1 is appended. */
  lemma AddNew(cart: seq<CartItem>, p: Product)
    requires forall k :: 0 <= k < |cart| ==> cart[k].id != p.id
    ensures AddToCart(cart, p) == cart + [Orders.OrderItem(p.id, p.name, p.price, 1, p.image)]
  {
  }

  /** `addToCart` keeps the cart invariant. */
  lemma AddKeepsWellFormed(cart: seq<CartItem>, p: Product)
    requires WellFormed(cart)
    ensures WellFormed(AddToCart(cart, p))
  {
  }

  /** `addToCart` adds exactly one item to the count shown on the cart badge. */
  lemma AddCountsOne(cart: seq<CartItem>, p: Product)
    requires DistinctIds(cart)
    ensures TotalItems(AddToCart(cart, p)) == TotalItems(cart) + 1
  {
    var r := AddToCart(cart, p);
    match Find(cart, p.id)
    case None =>
      SumOfAppend(cart, NewLine(p), LineQuantity);
    case Some(line) =>
      var k :| 0 <= k < |cart| && cart[k] == line && line.id == p.id;
      assert r == cart[k := cart[k].(quantity := cart[k].quantity + 1)];
      SumOfUpdate(cart, k, cart[k].(quantity := cart[k].quantity + 1), LineQuantity);
  }

  lemma OneMoreUnit(price: int, quantity: int)
    ensures price * (quantity + 1) == price * quantity + price
  {
  }

  /** `addToCart` raises the total by one unit price: the product's for a new line, the line's own otherwise. */
  lemma AddPricesOne(cart: seq<CartItem>, p: Product)
    requires DistinctIds(cart)
    ensures TotalPrice(AddToCart(cart, p))
         == TotalPrice(cart) + (match Find(cart, p.id) case Some(line) => line.price case None => p.price)
  {
    var r := AddToCart(cart, p);
    match Find(cart, p.id)
    case None =>
      SumOfAppend(cart, NewLine(p), LineTotal);
    case Some(line) =>
      var k :| 0 <= k < |cart| && cart[k] == line && line.id == p.id;
      var bumped := cart[k].(quantity := cart[k].quantity + 1);
      assert r == cart[k := bumped];
      SumOfUpdate(cart, k, bumped, LineTotal);
      OneMoreUnit(line.price, line.quantity);
  }

  // ---------------------------------------------------------------------
  // removeFromCart and updateQuantity

  /** Dropping lines never creates two lines with one id. */
  lemma {:induction false} FilterKeepsDistinct(cart: seq<CartItem>, p: CartItem -> bool)
    requires DistinctIds(cart)
    ensures DistinctIds(Filter(cart, p))
  {
    if cart != [] {
      var rest := cart[1..];
      FilterKeepsDistinct(rest, p);
      assert cart == [cart[0]] + rest;
      FilterCons(cart[0], rest, p);
      var fr := Filter(rest, p);
      forall k | 0 <= k < |fr|
        ensures fr[k].id != cart[0].id
      {
        var m :| 0 <= m < |rest| && rest[m] == fr[k];
        assert cart[m + 1] == fr[k];
      }
    }
  }

  /** `removeFromCart(id)` drops every line with that id and keeps every other line. */
  lemma RemoveDropsExactly(cart: seq<CartItem>, id: int)
    ensures var r := RemoveFromCart(cart, id);
      && (forall i :: 0 <= i < |r| ==> r[i].id != id && r[i] in cart)
      && (forall i :: 0 <= i < |cart| && cart[i].id != id ==> cart[i] in r)
  {
  }

  /** `removeFromCart` keeps the relative order of the remaining lines. */
  lemma RemoveKeepsOrder(a: seq<CartItem>, b: seq<CartItem>, id: int)
    ensures RemoveFromCart(a + b, id) == RemoveFromCart(a, id) + RemoveFromCart(b, id)
  {
    FilterConcat(a, b, (item: CartItem) => item.id != id);
  }

  /** Removing an id that has no line changes nothing. */
  lemma RemoveAbsent(cart: seq<CartItem>, id: int)
    requires forall i :: 0 <= i < |cart| ==> cart[i].id != id
    ensures RemoveFromCart(cart, id) == cart
  {
    FilterKeepsAll(cart, (item: CartItem) => item.id != id);
  }

  /** `removeFromCart` keeps the cart invariant. */
  lemma RemoveKeepsWellFormed(cart: seq<CartItem>, id: int)
    requires WellFormed(cart)
    ensures WellFormed(RemoveFromCart(cart, id))
  {
    FilterKeepsDistinct(cart, (item: CartItem) => item.id != id);
  }

  /**
   * On a cart with positive quantities, `updateQuantity(id, delta)` never
   * drops a line: a line with that id takes the new quantity when it is
   * positive and otherwise keeps its old one; every other line is unchanged.
   */
  lemma UpdateKeepsLines(cart: seq<CartItem>, id: int, delta: int)
    requires PositiveQuantities(cart)
    ensures var r := UpdateQuantity(cart, id, delta);
      && |r| == |cart|
      && (forall i :: 0 <= i < |cart| && cart[i].id == id && cart[i].quantity + delta > 0
            ==> r[i] == cart[i].(quantity := cart[i].quantity + delta))
      && (forall i :: 0 <= i < |cart| && (cart[i].id != id || cart[i].quantity + delta <= 0)
            ==> r[i] == cart[i])
  {
    var m := Map(cart, (item: CartItem) => Adjust(item, id, delta));
    FilterKeepsAll(m, (item: CartItem) => item.quantity > 0);
  }

  /** `updateQuantity` keeps the cart invariant, whatever the delta. */
  lemma UpdateKeepsWellFormed(cart: seq<CartItem>, id: int, delta: int)
    requires WellFormed(cart)
    ensures WellFormed(UpdateQuantity(cart, id, delta))
  {
    var m := Map(cart, (item: CartItem) => Adjust(item, id, delta));
    FilterKeepsDistinct(m, (item: CartItem) => item.quantity > 0);
  }

  // ---------------------------------------------------------------------
  // Any sequence of cart operations

  /** One user action on the cart. */
  datatype CartOp = Add(product: Product) | Remove(id: int) | Change(id: int, delta: int)

  function Step(cart: seq<CartItem>, op: CartOp): seq<CartItem> {
    match op
    case Add(p) => AddToCart(cart, p)
    case Remove(id) => RemoveFromCart(cart, id)
    case Change(id, delta) => UpdateQuantity(cart, id, delta)
  }

  /** The cart after the actions `ops`, in order. */
  function Run(cart: seq<CartItem>, ops: seq<CartOp>): seq<CartItem>
    decreases |ops|
  {
    if ops == [] then cart else Run(Step(cart, ops[0]), ops[1..])
  }

  /** Whatever the user does, quantities stay positive and each product has at most one line. */
  lemma {:induction false} RunKeepsWellFormed(cart: seq<CartItem>, ops: seq<CartOp>)
    requires WellFormed(cart)
    ensures WellFormed(Run(cart, ops))
    decreases |ops|
  {
    if ops != [] {
      match ops[0] {
        case Add(p) => AddKeepsWellFormed(cart, p);
        case Remove(id) => RemoveKeepsWellFormed(cart, id);
        case Change(id, delta) => UpdateKeepsWellFormed(cart, id, delta);
      }
      RunKeepsWellFormed(Step(cart, ops[0]), ops[1..]);
    }
  }
}
