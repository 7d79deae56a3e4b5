/** The cart store: an ordered list of lines keyed by the food's `_id`, with
    pure `prev -> next` transitions and two derived aggregates. */
module CartStore {
  import opened Wrappers
  import opened Catalog

  /** A cart line: the food exactly as it was added, plus a quantity. */
  datatype Line = Line(food: Food, quantity: int)

  type Cart = seq<Line>

  /** What a line is looked up by: its food's `_id`, `None` when absent. */
  type Key = Option<string>

  function KeyOf(l: Line): Key {
    l.food.mongoId
  }

  /** At most one line per `_id`. */
  ghost predicate Unique(cart: Cart) {
    forall i, j :: 0 <= i < j < |cart| ==> KeyOf(cart[i]) != KeyOf(cart[j])
  }

  /** Every quantity is at least 1. */
  ghost predicate PositiveQuantities(cart: Cart) {
    forall i :: 0 <= i < |cart| ==> cart[i].quantity >= 1
  }

  /** The invariant every store operation keeps. */
  ghost predicate Valid(cart: Cart) {
    Unique(cart) && PositiveQuantities(cart)
  }

  ghost predicate HasKey(cart: Cart, id: Key) {
    exists i :: 0 <= i < |cart| && KeyOf(cart[i]) == id
  }

  /** Line `i` is the first one with key `id`. */
  ghost predicate FirstAt(cart: Cart, id: Key, i: int) {
    0 <= i < |cart| && KeyOf(cart[i]) == id && forall j :: 0 <= j < i ==> KeyOf(cart[j]) != id
  }

  /** `prev.find(i => i._id === id)`: the first line with that key. */
  function Find(cart: Cart, id: Key): (r: Option<Line>)
    ensures r.None? <==> !HasKey(cart, id)
    ensures r.Some? ==> exists i :: FirstAt(cart, id, i) && cart[i] == r.value
  {
    if cart == [] then None
    else if KeyOf(cart[0]) == id then
      assert FirstAt(cart, id, 0);
      Some(cart[0])
    else
      var r := Find(cart[1..], id);
      assert forall i :: 0 <= i < |cart[1..]| ==> cart[1..][i] == cart[i + 1];
      assert HasKey(cart, id) ==> HasKey(cart[1..], id) by {
        if HasKey(cart, id) {
          var i :| 0 <= i < |cart| && KeyOf(cart[i]) == id;
          assert i > 0 && KeyOf(cart[1..][i - 1]) == id;
        }
      }
      if r.Some? then
        assert exists i :: FirstAt(cart, id, i) && cart[i] == r.value by {
          var i :| FirstAt(cart[1..], id, i) && cart[1..][i] == r.value;
          assert FirstAt(cart, id, i + 1) && cart[i + 1] == r.value;
        }
        r
      else r
  }

  /** `{ ...item, quantity: n }` applied to every line whose key is `id`. */
  function SetMatching(cart: Cart, id: Key, q: Line -> int): Cart {
    seq(|cart|, i requires 0 <= i < |cart| =>
      if KeyOf(cart[i]) == id then cart[i].(quantity := q(cart[i])) else cart[i])
  }

  /** `addToCart(item)` (the `setCart` updater): merge into the line with the
      same `_id`, or append a new line of quantity 1. */
  function AddToCart(cart: Cart, item: Food): (r: Cart)
    ensures HasKey(cart, item.mongoId) ==> |r| == |cart|
    ensures !HasKey(cart, item.mongoId) ==> |r| == |cart| + 1 && r[|cart|] == Line(item, 1)
    ensures HasKey(r, item.mongoId)
  {
    if Find(cart, item.mongoId).Some? then
      var r := SetMatching(cart, item.mongoId, OneMore);
      var i :| 0 <= i < |cart| && KeyOf(cart[i]) == item.mongoId;
      assert KeyOf(r[i]) == item.mongoId;
      r
    else
      var r := cart + [Line(item, 1)];
      assert KeyOf(r[|cart|]) == item.mongoId;
      r
  }

  /** `removeFromCart(id)`: the lines whose `_id !== id`, in order. */
  function RemoveFromCart(cart: Cart, id: Key): (r: Cart)
    ensures |r| <= |cart|
    ensures forall l :: l in r <==> l in cart && KeyOf(l) != id
  {
    if cart == [] then []
    else
      var rest := RemoveFromCart(cart[1..], id);
      assert forall l :: l in cart <==> l == cart[0] || l in cart[1..];
      if KeyOf(cart[0]) != id then [cart[0]] + rest else rest
  }

  /** `updateQuantity(id, quantity)`: ignored below 1, otherwise every line
      with that key gets the new quantity. */
  function UpdateQuantity(cart: Cart, id: Key, quantity: int): (r: Cart)
    ensures quantity < 1 ==> r == cart
    ensures |r| == |cart|
    ensures forall i :: 0 <= i < |cart| ==>
      r[i].food == cart[i].food &&
      r[i].quantity == (if quantity >= 1 && KeyOf(cart[i]) == id then quantity else cart[i].quantity)
  {
    if quantity < 1 then cart
    else SetMatching(cart, id, _ => quantity)
  }

  /** `clearCart()`: the empty cart, whatever came before. */
  function ClearCart(cart: Cart): (r: Cart)
    ensures Valid(r)
    ensures Total(r) == 0 && ItemsCount(r) == 0
  {
    []
  }

  /** Sum of `weight` over the lines, folded from the left as `reduce` does. */
  function Sum(cart: Cart, weight: Line -> int): int {
    if cart == [] then 0
    else Sum(cart[..|cart| - 1], weight) + weight(cart[|cart| - 1])
  }

  /** A line's contribution to the total: `price * quantity`, in cents. */
  function LineTotal(l: Line): int {
    l.food.price * l.quantity
  }

  function Quantity(l: Line): int {
    l.quantity
  }

  /** The merged quantity `i.quantity + 1`. */
  function OneMore(l: Line): int {
    l.quantity + 1
  }

  /** `getCartTotal()`, in cents. */
  function Total(cart: Cart): int {
    Sum(cart, LineTotal)
  }

  /** `getCartItemsCount()`. */
  function ItemsCount(cart: Cart): int {
    Sum(cart, Quantity)
  }

  // ---------------------------------------------------------------------
  // Sums

  lemma {:induction false} SumAppend(a: Cart, b: Cart, weight: Line -> int)
    ensures Sum(a + b, weight) == Sum(a, weight) + Sum(b, weight)
  {
    if b == [] {
      assert a + b == a;
    } else {
      var b' := b[..|b| - 1];
      assert (a + b)[..|a + b| - 1] == a + b';
      assert (a + b)[|a + b| - 1] == b[|b| - 1];
      SumAppend(a, b', weight);
    }
  }

  lemma SumSingleton(l: Line, weight: Line -> int)
    ensures Sum([l], weight) == weight(l)
  {
    assert [l][..0] == [];
  }

  /** A sum over three consecutive parts. */
  lemma SumThree(p: Cart, c: Line, q: Cart, weight: Line -> int)
    ensures Sum(p + [c] + q, weight) == Sum(p, weight) + weight(c) + Sum(q, weight)
  {
    SumAppend(p + [c], q, weight);
    SumAppend(p, [c], weight);
    SumSingleton(c, weight);
  }

  /** Replacing one line changes a sum by the difference of its weights. */
  lemma SumReplace(cart: Cart, k: int, l: Line, weight: Line -> int)
    requires 0 <= k < |cart|
    ensures Sum(cart[k := l], weight) == Sum(cart, weight) - weight(cart[k]) + weight(l)
  {
    var p, q := cart[..k], cart[k + 1..];
    assert p + [cart[k]] == cart[..k + 1];
    assert cart[..k + 1] + q == cart;
    assert cart[k := l] == p + [l] + q;
    SumThree(p, cart[k], q, weight);
    SumThree(p, l, q, weight);
  }

  /** Deleting one line takes its weight off a sum. */
  lemma SumDelete(cart: Cart, k: int, weight: Line -> int)
    requires 0 <= k < |cart|
    ensures Sum(cart[..k] + cart[k + 1..], weight) == Sum(cart, weight) - weight(cart[k])
  {
    var p, q := cart[..k], cart[k + 1..];
    assert p + [cart[k]] == cart[..k + 1];
    assert cart[..k + 1] + q == cart;
    SumThree(p, cart[k], q, weight);
    SumAppend(p, q, weight);
  }

  /** `getCartTotal` and `getCartItemsCount` as the `reduce` loops they are. */
  method GetCartTotal(cart: Cart) returns (total: int)
    ensures total == Total(cart)
  {
    total := 0;
    var i := 0;
    while i < |cart|
      invariant 0 <= i <= |cart|
      invariant total == Total(cart[..i])
    {
      assert cart[..i + 1][..i] == cart[..i];
      total := total + cart[i].food.price * cart[i].quantity;
      i := i + 1;
    }
    assert cart[..i] == cart;
  }

  method GetCartItemsCount(cart: Cart) returns (count: int)
    ensures count == ItemsCount(cart)
  {
    count := 0;
    var i := 0;
    while i < |cart|
      invariant 0 <= i <= |cart|
      invariant count == ItemsCount(cart[..i])
    {
      assert cart[..i + 1][..i] == cart[..i];
      count := count + cart[i].quantity;
      i := i + 1;
    }
    assert cart[..i] == cart;
  }

  /** In a valid cart the total is never negative and the count is at least
      the number of lines; so the count is 0 exactly for the empty cart. */
  lemma {:induction false} ValidAggregates(cart: Cart)
    requires PositiveQuantities(cart)
    ensures Total(cart) >= 0
    ensures ItemsCount(cart) >= |cart|
    ensures ItemsCount(cart) == 0 <==> cart == []
  {
    if cart != [] {
      var init := cart[..|cart| - 1];
      assert PositiveQuantities(init) by {
        forall i | 0 <= i < |init| ensures init[i].quantity >= 1 {
          assert init[i] == cart[i];
        }
      }
      ValidAggregates(init);
      var last := cart[|cart| - 1];
      assert last.quantity >= 1;
      assert LineTotal(last) >= 0 by {
        assert last.food.price >= 0;
      }
    }
  }

  // ---------------------------------------------------------------------
  // Unique keys locate a single line

  lemma UniqueIndex(cart: Cart, k: int, j: int)
    requires Unique(cart)
    requires 0 <= k < |cart| && 0 <= j < |cart|
    requires KeyOf(cart[j]) == KeyOf(cart[k])
    ensures j == k
  {
  }

  /** In a cart with unique keys, changing the quantity of the lines with
      `cart[k]`'s key changes `cart[k]` only. */
  lemma SetMatchingUnique(cart: Cart, k: int, q: Line -> int)
    requires Unique(cart) && 0 <= k < |cart|
    ensures SetMatching(cart, KeyOf(cart[k]), q) == cart[k := cart[k].(quantity := q(cart[k]))]
  {
    var r := SetMatching(cart, KeyOf(cart[k]), q);
    forall j | 0 <= j < |cart| && j != k
      ensures r[j] == cart[j]
    {
      if KeyOf(cart[j]) == KeyOf(cart[k]) {
        UniqueIndex(cart, k, j);
      }
    }
  }

  // ---------------------------------------------------------------------
  // addToCart

  /** Adding a food whose `_id` is on line `k` raises that line's quantity by
      exactly 1 and leaves every other line, and the order, as it was; the
      line keeps the food it was first added with. */
  lemma AddExisting(cart: Cart, item: Food, k: int)
    requires Unique(cart)
    requires 0 <= k < |cart| && KeyOf(cart[k]) == item.mongoId
    ensures AddToCart(cart, item) == cart[k := Line(cart[k].food, cart[k].quantity + 1)]
  {
    SetMatchingUnique(cart, k, OneMore);
  }

  /** Adding a food whose `_id` is absent appends one line of quantity 1. */
  lemma AddNew(cart: Cart, item: Food)
    requires forall i :: 0 <= i < |cart| ==> KeyOf(cart[i]) != item.mongoId
    ensures AddToCart(cart, item) == cart + [Line(item, 1)]
  {
  }

  lemma AddPreservesValid(cart: Cart, item: Food)
    requires Valid(cart)
    ensures Valid(AddToCart(cart, item))
  {
    var r := AddToCart(cart, item);
    if HasKey(cart, item.mongoId) {
      var k :| 0 <= k < |cart| && KeyOf(cart[k]) == item.mongoId;
      AddExisting(cart, item, k);
      assert forall i :: 0 <= i < |r| ==> KeyOf(r[i]) == KeyOf(cart[i]);
    } else {
      AddNew(cart, item);
    }
  }

  /** Each `addToCart` raises the item count by exactly one. */
  lemma AddCountsOne(cart: Cart, item: Food)
    requires Unique(cart)
    ensures ItemsCount(AddToCart(cart, item)) == ItemsCount(cart) + 1
  {
    if HasKey(cart, item.mongoId) {
      var k :| 0 <= k < |cart| && KeyOf(cart[k]) == item.mongoId;
      AddExisting(cart, item, k);
      SumReplace(cart, k, Line(cart[k].food, cart[k].quantity + 1), Quantity);
    } else {
      AddNew(cart, item);
      SumAppend(cart, [Line(item, 1)], Quantity);
      assert [Line(item, 1)][..0] == [];
    }
  }

  /** One more unit adds one unit price to a line's total. */
  lemma LineTotalOneMore(l: Line)
    ensures LineTotal(Line(l.food, l.quantity + 1)) == LineTotal(l) + l.food.price
  {
    assert l.food.price * (l.quantity + 1) == l.food.price * l.quantity + l.food.price;
  }

  /** Adding a food whose `_id` is on line `k` raises the total by the unit
      price captured when that line was first added, not by the new food's. */
  lemma AddTotalExisting(cart: Cart, item: Food, k: int)
    requires Unique(cart)
    requires 0 <= k < |cart| && KeyOf(cart[k]) == item.mongoId
    ensures Total(AddToCart(cart, item)) == Total(cart) + cart[k].food.price
  {
    AddExisting(cart, item, k);
    SumReplace(cart, k, Line(cart[k].food, cart[k].quantity + 1), LineTotal);
    LineTotalOneMore(cart[k]);
  }

  /** Adding a food whose `_id` is absent raises the total by its price. */
  lemma AddTotalNew(cart: Cart, item: Food)
    requires forall i :: 0 <= i < |cart| ==> KeyOf(cart[i]) != item.mongoId
    ensures Total(AddToCart(cart, item)) == Total(cart) + item.price
  {
    AddNew(cart, item);
    SumAppend(cart, [Line(item, 1)], LineTotal);
    assert [Line(item, 1)][..0] == [];
  }

  // ---------------------------------------------------------------------
  // removeFromCart

  /** Removing an `_id` no line has changes nothing. */
  lemma {:induction false} RemoveAbsent(cart: Cart, id: Key)
    requires forall i :: 0 <= i < |cart| ==> KeyOf(cart[i]) != id
    ensures RemoveFromCart(cart, id) == cart
  {
    if cart != [] {
      assert KeyOf(cart[0]) != id;
      assert forall i :: 0 <= i < |cart[1..]| ==> cart[1..][i] == cart[i + 1];
      RemoveAbsent(cart[1..], id);
      assert cart == [cart[0]] + cart[1..];
    }
  }

  /** Removal keeps the order of what remains: removing from a cart in two
      parts is removing from each part and joining them. */
  lemma {:induction false} RemoveAppend(a: Cart, b: Cart, id: Key)
    ensures RemoveFromCart(a + b, id) == RemoveFromCart(a, id) + RemoveFromCart(b, id)
  {
    if a == [] {
      assert a + b == b;
    } else {
      assert (a + b)[0] == a[0];
      assert (a + b)[1..] == a[1..] + b;
      RemoveAppend(a[1..], b, id);
    }
  }

  /** In a cart with unique keys, removing the `_id` of line `k` deletes that
      line and keeps all the others in order. */
  lemma {:induction false} RemoveUnique(cart: Cart, k: int)
    requires Unique(cart) && 0 <= k < |cart|
    ensures RemoveFromCart(cart, KeyOf(cart[k])) == cart[..k] + cart[k + 1..]
  {
    var id := KeyOf(cart[k]);
    var tail := cart[1..];
    if k == 0 {
      forall i | 0 <= i < |tail| ensures KeyOf(tail[i]) != id {
        assert tail[i] == cart[i + 1];
      }
      RemoveAbsent(tail, id);
      assert cart[..0] + cart[1..] == tail;
    } else {
      UniqueTail(cart);
      assert KeyOf(cart[0]) != id;
      assert tail[k - 1] == cart[k];
      RemoveUnique(tail, k - 1);
      assert [cart[0]] + (tail[..k - 1] + tail[k..]) == cart[..k] + cart[k + 1..];
    }
  }

  lemma UniqueTail(cart: Cart)
    requires Unique(cart) && cart != []
    ensures Unique(cart[1..])
  {
    var tail := cart[1..];
    forall i, j | 0 <= i < j < |tail| ensures KeyOf(tail[i]) != KeyOf(tail[j]) {
      assert tail[i] == cart[i + 1] && tail[j] == cart[j + 1];
    }
  }

  /** Deleting a line keeps a cart valid. */
  lemma DeleteKeepsValid(cart: Cart, k: int)
    requires Valid(cart) && 0 <= k < |cart|
    ensures Valid(cart[..k] + cart[k + 1..])
  {
    var r := cart[..k] + cart[k + 1..];
    assert forall i :: 0 <= i < |r| ==> r[i] == cart[if i < k then i else i + 1];
    forall i, j | 0 <= i < j < |r| ensures KeyOf(r[i]) != KeyOf(r[j]) {
      var i', j' := if i < k then i else i + 1, if j < k then j else j + 1;
      assert r[i] == cart[i'] && r[j] == cart[j'] && i' < j';
    }
  }

  lemma RemovePreservesValid(cart: Cart, id: Key)
    requires Valid(cart)
    ensures Valid(RemoveFromCart(cart, id))
  {
    if HasKey(cart, id) {
      var k :| 0 <= k < |cart| && KeyOf(cart[k]) == id;
      RemoveUnique(cart, k);
      DeleteKeepsValid(cart, k);
    } else {
      RemoveAbsent(cart, id);
    }
  }

  /** Removing a present `_id` takes that line's quantity off the count and
      its `price * quantity` off the total. */
  lemma RemoveAggregates(cart: Cart, k: int)
    requires Unique(cart) && 0 <= k < |cart|
    ensures ItemsCount(RemoveFromCart(cart, KeyOf(cart[k]))) == ItemsCount(cart) - cart[k].quantity
    ensures Total(RemoveFromCart(cart, KeyOf(cart[k]))) == Total(cart) - LineTotal(cart[k])
  {
    RemoveUnique(cart, k);
    SumDelete(cart, k, Quantity);
    SumDelete(cart, k, LineTotal);
  }

  // ---------------------------------------------------------------------
  // updateQuantity

  /** With unique keys and `q >= 1`, only line `k` changes, to quantity `q`. */
  lemma UpdateUnique(cart: Cart, k: int, q: int)
    requires Unique(cart) && 0 <= k < |cart| && q >= 1
    ensures UpdateQuantity(cart, KeyOf(cart[k]), q) == cart[k := Line(cart[k].food, q)]
    ensures ItemsCount(UpdateQuantity(cart, KeyOf(cart[k]), q)) == ItemsCount(cart) - cart[k].quantity + q
  {
    SetMatchingUnique(cart, k, _ => q);
    SumReplace(cart, k, Line(cart[k].food, q), Quantity);
  }

  lemma UpdatePreservesValid(cart: Cart, id: Key, q: int)
    requires Valid(cart)
    ensures Valid(UpdateQuantity(cart, id, q))
  {
    var r := UpdateQuantity(cart, id, q);
    assert forall i :: 0 <= i < |r| ==> KeyOf(r[i]) == KeyOf(cart[i]);
  }
}
