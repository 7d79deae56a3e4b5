/** The cart page: how its buttons drive the cart store, when it lets the
    shopper proceed, and the order summary it shows (tax rounded to cents). */
module CartPage {
  import opened Wrappers
  import opened Catalog
  import opened CartStore
  import opened Money

  /** `getItemId(item)`: `item._id || item.id`. An empty `_id` is falsy, so
      it falls through to `id` as well. */
  function ItemId(food: Food): (r: Option<string>)
    ensures food.mongoId.Some? && food.mongoId.value != "" ==> r == food.mongoId
    ensures food.mongoId.None? || food.mongoId.value == "" ==> r == food.id
  {
    if food.mongoId.Some? && food.mongoId.value != "" then food.mongoId else food.id
  }

  /** A line whose `_id` is a non-empty string: `getItemId` then returns the
      very key the store looks lines up by. */
  predicate StoreAddressable(l: Line) {
    l.food.mongoId.Some? && l.food.mongoId.value != ""
  }

  /** The minus button: `updateQuantity(getItemId(item), item.quantity - 1)`. */
  function MinusClicked(cart: Cart, l: Line): Cart {
    UpdateQuantity(cart, ItemId(l.food), l.quantity - 1)
  }

  /** The plus button: `updateQuantity(getItemId(item), item.quantity + 1)`. */
  function PlusClicked(cart: Cart, l: Line): Cart {
    UpdateQuantity(cart, ItemId(l.food), l.quantity + 1)
  }

  /** The trash button: `removeFromCart(getItemId(item))`. */
  function RemoveClicked(cart: Cart, l: Line): Cart {
    RemoveFromCart(cart, ItemId(l.food))
  }

  /** Pressing minus on a line of quantity 1 asks for 0, which the store
      ignores: the cart stays as it was. */
  lemma MinusAtOneKeepsCart(cart: Cart, k: int)
    requires 0 <= k < |cart| && cart[k].quantity <= 1
    ensures MinusClicked(cart, cart[k]) == cart
  {
  }

  /** Pressing minus on a line of quantity above 1 lowers exactly that line
      by one, and the item count by one. */
  lemma MinusLowersLine(cart: Cart, k: int)
    requires Unique(cart) && 0 <= k < |cart| && StoreAddressable(cart[k])
    requires cart[k].quantity > 1
    ensures MinusClicked(cart, cart[k]) == cart[k := Line(cart[k].food, cart[k].quantity - 1)]
    ensures ItemsCount(MinusClicked(cart, cart[k])) == ItemsCount(cart) - 1
  {
    UpdateUnique(cart, k, cart[k].quantity - 1);
  }

  /** Pressing plus on a valid cart's line raises exactly that line by one,
      and the item count by one. */
  lemma PlusRaisesLine(cart: Cart, k: int)
    requires Valid(cart) && 0 <= k < |cart| && StoreAddressable(cart[k])
    ensures PlusClicked(cart, cart[k]) == cart[k := Line(cart[k].food, cart[k].quantity + 1)]
    ensures ItemsCount(PlusClicked(cart, cart[k])) == ItemsCount(cart) + 1
    ensures Valid(PlusClicked(cart, cart[k]))
  {
    UpdateUnique(cart, k, cart[k].quantity + 1);
    UpdatePreservesValid(cart, ItemId(cart[k].food), cart[k].quantity + 1);
  }

  /** The trash button removes exactly its own line. */
  lemma RemoveDeletesLine(cart: Cart, k: int)
    requires Unique(cart) && 0 <= k < |cart| && StoreAddressable(cart[k])
    ensures RemoveClicked(cart, cart[k]) == cart[..k] + cart[k + 1..]
  {
    RemoveUnique(cart, k);
  }

  /** A line whose food has no `_id` but a plain `id`: `getItemId` hands the
      store the `id`, the store compares it with `_id`, and the line stays. */
  lemma RemoveIdOnlyLineKeepsIt(cart: Cart, k: int)
    requires 0 <= k < |cart|
    requires cart[k].food.mongoId.None? && cart[k].food.id.Some?
    ensures cart[k] in RemoveClicked(cart, cart[k])
  {
  }

  /** The item total shown on a line is the store's line total, the same
      term `getCartTotal` sums for the subtotal. */
  function LineDisplayTotal(l: Line): (c: int)
    ensures c == l.food.price * l.quantity
    ensures l.quantity >= 1 ==> c >= l.food.price
    ensures l.quantity == 1 ==> c == l.food.price
  {
    LineTotal(l)
  }

  /** `handleCheckout`: navigate to the checkout page unless the cart is
      empty. */
  function HandleCheckout(cart: Cart): (goes: bool)
    ensures goes <==> cart != []
  {
    !(|cart| == 0)
  }

  /** For a valid cart, proceeding is allowed exactly when the navbar's item
      count is positive. */
  lemma CheckoutNeedsItems(cart: Cart)
    requires Valid(cart)
    ensures HandleCheckout(cart) <==> ItemsCount(cart) > 0
  {
    ValidAggregates(cart);
  }

  /** The order summary in cents. */
  datatype Summary = Summary(subtotal: int, tax: int, deliveryFee: int, total: int)

  /** Lines 23-26 of the cart page: the tax is 8% of the subtotal rounded to
      the cent, and the total is subtotal + tax + $2.99 rounded to the cent. */
  function CartSummary(cart: Cart): (s: Summary)
    ensures s.subtotal == Total(cart)
    ensures s.deliveryFee == DeliveryFeeCents
    ensures s.subtotal >= 0 ==> 8 * s.subtotal - 50 < 100 * s.tax <= 8 * s.subtotal + 50
    ensures s.total == s.subtotal + s.tax + s.deliveryFee
  {
    var subtotal := Total(cart);
    var tax := RoundToCents(ExactTaxFine(subtotal));
    var total := RoundToCents(FinePerCent * (subtotal + tax + DeliveryFeeCents));
    RoundWholeCents(subtotal + tax + DeliveryFeeCents);
    Summary(subtotal, tax, DeliveryFeeCents, total)
  }

  /** The total shown is within half a cent of the exact 1.08 * subtotal + 2.99. */
  lemma SummaryTotalNearExact(cart: Cart)
    requires PositiveQuantities(cart)
    ensures var s := CartSummary(cart);
      108 * s.subtotal + 100 * DeliveryFeeCents - 50 < 100 * s.total <= 108 * s.subtotal + 100 * DeliveryFeeCents + 50
  {
    ValidAggregates(cart);
  }

  /** One vegetable box at $24.99 and two salad greens at $4.99: subtotal
      $34.97, tax $2.80, total $40.76. */
  lemma SampleSummary()
    ensures CartSummary([Line(VegetableBox(), 1), Line(SaladGreens(), 2)]) == Summary(3497, 280, 299, 4076)
  {
    var cart := [Line(VegetableBox(), 1), Line(SaladGreens(), 2)];
    assert cart == [cart[0]] + [cart[1]];
    SumAppend([cart[0]], [cart[1]], LineTotal);
    SumSingleton(cart[0], LineTotal);
    SumSingleton(cart[1], LineTotal);
    assert Total(cart) == 3497;
    assert RoundToCents(ExactTaxFine(3497)) == 280;
    assert RoundToCents(FinePerCent * (3497 + 280 + DeliveryFeeCents)) == 4076;
  }
}
