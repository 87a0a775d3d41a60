/**
 * The shopping cart of tests/cart.py: a list of line items that only grows,
 * with the number of units and the amount due computed over it.
 */
module Shop {

  /** One line of the cart: a product name, a unit price and a number of units. */
  datatype Item = Item(name: string, price: real, quantity: int)

  /** The number of units in `items`: the sum of their quantities. */
  function QuantitySum(items: seq<Item>): int {
    if items == [] then 0 else items[0].quantity + QuantitySum(items[1..])
  }

  /** What one line costs: its price times its quantity. */
  function LineTotal(it: Item): real {
    it.price * it.quantity as real
  }

  /** The amount due for `items`: the sum of the line totals. */
  function PriceSum(items: seq<Item>): real {
    if items == [] then 0.0 else LineTotal(items[0]) + PriceSum(items[1..])
  }

  lemma {:induction false} QuantitySumAppend(a: seq<Item>, b: seq<Item>)
    ensures QuantitySum(a + b) == QuantitySum(a) + QuantitySum(b)
  {
    if a == [] {
      assert a + b == b;
    } else {
      assert (a + b)[1..] == a[1..] + b;
      QuantitySumAppend(a[1..], b);
    }
  }

  lemma {:induction false} PriceSumAppend(a: seq<Item>, b: seq<Item>)
    ensures PriceSum(a + b) == PriceSum(a) + PriceSum(b)
  {
    if a == [] {
      assert a + b == b;
    } else {
      assert (a + b)[1..] == a[1..] + b;
      PriceSumAppend(a[1..], b);
    }
  }

  /** Adding a line raises the unit count by its quantity and the amount due by price times quantity. */
  lemma TotalsAfterAdd(items: seq<Item>, name: string, price: real, quantity: int)
    ensures QuantitySum(items + [Item(name, price, quantity)]) == QuantitySum(items) + quantity
    ensures PriceSum(items + [Item(name, price, quantity)]) == PriceSum(items) + LineTotal(Item(name, price, quantity))
  {
    QuantitySumAppend(items, [Item(name, price, quantity)]);
    PriceSumAppend(items, [Item(name, price, quantity)]);
  }

  /** `b` with the element at `i` taken out. */
  function Without(b: seq<Item>, i: nat): seq<Item>
    requires i < |b|
  {
    b[..i] + b[i + 1..]
  }

  lemma QuantitySumWithout(b: seq<Item>, i: nat)
    requires i < |b|
    ensures QuantitySum(b) == b[i].quantity + QuantitySum(Without(b, i))
  {
    var left, tail := b[..i], b[i..];
    assert b == left + tail;
    QuantitySumAppend(left, tail);
    assert tail[0] == b[i] && tail[1..] == b[i + 1..];
    QuantitySumAppend(left, b[i + 1..]);
  }

  lemma PriceSumWithout(b: seq<Item>, i: nat)
    requires i < |b|
    ensures PriceSum(b) == LineTotal(b[i]) + PriceSum(Without(b, i))
  {
    var left, tail := b[..i], b[i..];
    assert b == left + tail;
    PriceSumAppend(left, tail);
    assert tail[0] == b[i] && tail[1..] == b[i + 1..];
    PriceSumAppend(left, b[i + 1..]);
  }

  lemma WithoutMultiset(b: seq<Item>, i: nat)
    requires i < |b|
    ensures multiset(Without(b, i)) == multiset(b) - multiset{b[i]}
  {
    var left, right := b[..i], b[i + 1..];
    assert b == left + ([b[i]] + right);
    assert multiset(b) == multiset(left) + multiset{b[i]} + multiset(right);
  }

  lemma TailMultiset(a: seq<Item>)
    requires a != []
    ensures multiset(a[1..]) == multiset(a) - multiset{a[0]}
  {
    assert a == [a[0]] + a[1..];
  }

  /** A line of `a` found in `b`, with what remains of both still a permutation of each other. */
  lemma MatchHead(a: seq<Item>, b: seq<Item>) returns (i: nat)
    requires a != [] && multiset(a) == multiset(b)
    ensures i < |b| && b[i] == a[0]
    ensures multiset(a[1..]) == multiset(Without(b, i))
  {
    assert a[0] in multiset(b);
    i :| 0 <= i < |b| && b[i] == a[0];
    WithoutMultiset(b, i);
    TailMultiset(a);
  }

  /** The order in which the lines were added does not change the unit count. */
  lemma {:induction false} QuantitySumPermutation(a: seq<Item>, b: seq<Item>)
    requires multiset(a) == multiset(b)
    ensures QuantitySum(a) == QuantitySum(b)
    decreases |a|
  {
    if a == [] {
      assert |b| == |multiset(b)| == 0;
    } else {
      var i := MatchHead(a, b);
      QuantitySumWithout(b, i);
      QuantitySumPermutation(a[1..], Without(b, i));
    }
  }

  /** The order in which the lines were added does not change the amount due. */
  lemma {:induction false} PriceSumPermutation(a: seq<Item>, b: seq<Item>)
    requires multiset(a) == multiset(b)
    ensures PriceSum(a) == PriceSum(b)
    decreases |a|
  {
    if a == [] {
      assert |b| == |multiset(b)| == 0;
    } else {
      var i := MatchHead(a, b);
      PriceSumWithout(b, i);
      PriceSumPermutation(a[1..], Without(b, i));
    }
  }

  /** With no negative quantity and no negative price, neither total is negative. */
  lemma {:induction false} TotalsNonNegative(items: seq<Item>)
    requires forall i :: 0 <= i < |items| ==> items[i].quantity >= 0 && items[i].price >= 0.0
    ensures QuantitySum(items) >= 0 && PriceSum(items) >= 0.0
  {
    if items != [] {
      TotalsNonNegative(items[1..]);
      assert LineTotal(items[0]) >= 0.0;
    }
  }

  /** `Cart` (tests/cart.py:1-12). */
  class Cart {
    /** The lines, in the order they were added. */
    var items: seq<Item>

    constructor ()
      ensures items == []
    {
      items := [];
    }

    /** `add_item`: appends one line; the quantity defaults to 1. */
    method AddItem(name: string, price: real, quantity: int := 1)
      modifies this
      ensures items == old(items) + [Item(name, price, quantity)]
    {
      items := items + [Item(name, price, quantity)];
    }

    /** `total_items`. */
    method TotalItems() returns (n: int)
      ensures n == QuantitySum(items)
    {
      n := 0;
      for i := 0 to |items|
        invariant n == QuantitySum(items[..i])
      {
        QuantitySumAppend(items[..i], [items[i]]);
        assert items[..i + 1] == items[..i] + [items[i]];
        n := n + items[i].quantity;
      }
      assert items[..|items|] == items;
    }

    /** `total_price`. */
    method TotalPrice() returns (p: real)
      ensures p == PriceSum(items)
    {
      p := 0.0;
      for i := 0 to |items|
        invariant p == PriceSum(items[..i])
      {
        PriceSumAppend(items[..i], [items[i]]);
        assert items[..i + 1] == items[..i] + [items[i]];
        p := p + LineTotal(items[i]);
      }
      assert items[..|items|] == items;
    }
  }

  /** A new cart holds no units and costs nothing (tests/test_cart.py:3-6). */
  method CartStartsEmpty() returns (n: int, p: real)
    ensures n == 0 && p == 0.0
  {
    var cart := new Cart();
    n := cart.TotalItems();
    p := cart.TotalPrice();
  }

  /** Two shirts at 25.0 make two units and 50.0 (tests/test_cart.py:8-13). */
  method AddItemIncreasesCountAndPrice() returns (n: int, p: real)
    ensures n == 2 && p == 50.0
  {
    var cart := new Cart();
    cart.AddItem("shirt", 25.0, 2);
    n := cart.TotalItems();
    p := cart.TotalPrice();
    assert cart.items == [] + [Item("shirt", 25.0, 2)];
  }

  /** Without a quantity, a line counts as one unit at its price. */
  method AddItemDefaultsToOneUnit(name: string, price: real) returns (n: int, p: real)
    ensures n == 1 && p == price
  {
    var cart := new Cart();
    cart.AddItem(name, price);
    n := cart.TotalItems();
    p := cart.TotalPrice();
    assert cart.items == [Item(name, price, 1)];
  }
}
