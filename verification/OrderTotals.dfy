/**
 The total of an order.  The program adds price times quantity line by line; the total is what the units cost one
 by one, whatever order the lines come in and however the units are spread over lines.
 */
module OrderTotals {
  import opened Basics
  import opened Events

  function Total(items: seq<OrderItem>): real {
    if items == [] then 0.0
    else
      Total(items[..|items| - 1]) + Cost(items[|items| - 1])
  }

  function Cost(item: OrderItem): real {
    item.price * item.quantity as real
  }

  /******* What every single unit costs *******/

  function Sum(prices: seq<real>): real {
    if prices == [] then 0.0 else prices[0] + Sum(prices[1..])
  }

  function Units(price: real, quantity: int): seq<real> {
    if quantity <= 0 then [] else [price] + Units(price, quantity - 1)
  }

  /** The price of every unit ordered. */
  function UnitPrices(items: seq<OrderItem>): seq<real> {
    if items == [] then [] else Units(items[0].price, items[0].quantity) + UnitPrices(items[1..])
  }

  lemma {:induction false} SumConcat(a: seq<real>, b: seq<real>)
    ensures Sum(a + b) == Sum(a) + Sum(b)
  {
    if a == [] {
      assert a + b == b;
    } else {
      SumConcat(a[1..], b);
      assert (a + b)[1..] == a[1..] + b;
    }
  }

  lemma {:induction false} SumOfUnits(price: real, quantity: int)
    requires quantity >= 0
    ensures Sum(Units(price, quantity)) == price * quantity as real
    decreases quantity
  {
    if quantity > 0 {
      SumOfUnits(price, quantity - 1);
      assert Units(price, quantity)[1..] == Units(price, quantity - 1);
      assert price * quantity as real == price + price * (quantity - 1) as real;
    }
  }

  lemma CostOfUnits(item: OrderItem)
    requires item.quantity >= 0
    ensures Sum(Units(item.price, item.quantity)) == Cost(item)
  {
    SumOfUnits(item.price, item.quantity);
  }

  lemma {:induction false} TotalConcat(a: seq<OrderItem>, b: seq<OrderItem>)
    ensures Total(a + b) == Total(a) + Total(b)
  {
    if b == [] {
      assert a + b == a;
    } else {
      TotalConcat(a, b[..|b| - 1]);
      assert (a + b)[..|a + b| - 1] == a + b[..|b| - 1];
    }
  }

  lemma TotalOfOne(item: OrderItem)
    ensures Total([item]) == Cost(item)
  {
    assert [item][..0] == [];
  }

  /** The total of the lines is what their units cost one by one. */
  lemma {:induction false} TotalIsUnitSum(items: seq<OrderItem>)
    requires forall i | 0 <= i < |items| :: items[i].quantity >= 0
    ensures Total(items) == Sum(UnitPrices(items))
  {
    if items != [] {
      var first, rest := items[0], items[1..];
      TotalIsUnitSum(rest);
      assert items == [first] + rest;
      TotalConcat([first], rest);
      TotalOfOne(first);
      SumConcat(Units(first.price, first.quantity), UnitPrices(rest));
      CostOfUnits(first);
    }
  }

  /******* Lines and units *******/

  lemma TotalSplit(before: seq<OrderItem>, item: OrderItem, after: seq<OrderItem>)
    ensures Total(before + [item] + after) == Total(before) + Cost(item) + Total(after)
  {
    TotalConcat(before + [item], after);
    TotalConcat(before, [item]);
    TotalOfOne(item);
  }

  lemma SplitAt(items: seq<OrderItem>, i: nat)
    requires i < |items|
    ensures items == items[..i] + [items[i]] + items[i + 1..]
  {
  }

  lemma MultisetOfThree(before: seq<OrderItem>, item: OrderItem, after: seq<OrderItem>)
    ensures multiset(before + [item] + after) == multiset(before + after) + multiset{item}
  {
  }

  lemma Removing(all: seq<OrderItem>, before: seq<OrderItem>, item: OrderItem, after: seq<OrderItem>)
    requires all == before + [item] + after
    ensures multiset(before + after) == multiset(all) - multiset{item}
  {
    MultisetOfThree(before, item, after);
  }

  lemma RemovingLast(items: seq<OrderItem>)
    requires items != []
    ensures multiset(items[..|items| - 1]) == multiset(items) - multiset{items[|items| - 1]}
  {
    var init := items[..|items| - 1];
    assert init + [] == init && items == init + [items[|items| - 1]] + [];
    Removing(items, init, items[|items| - 1], []);
  }

  lemma WithoutOne(items: seq<OrderItem>, other: seq<OrderItem>, i: nat)
    requires items != [] && multiset(items) == multiset(other) && i < |other| && other[i] == items[|items| - 1]
    ensures multiset(items[..|items| - 1]) == multiset(other[..i] + other[i + 1..])
  {
    RemovingLast(items);
    SplitAt(other, i);
    Removing(other, other[..i], other[i], other[i + 1..]);
  }

  /** The order of the lines does not matter. */
  lemma {:induction false} TotalPermuted(items: seq<OrderItem>, other: seq<OrderItem>)
    requires multiset(items) == multiset(other)
    ensures Total(items) == Total(other)
    decreases |items|
  {
    if items == [] {
      assert |other| == |multiset(other)| == 0;
    } else {
      var last := items[|items| - 1];
      assert last in multiset(other);
      var i :| 0 <= i < |other| && other[i] == last;
      WithoutOne(items, other, i);
      TotalPermuted(items[..|items| - 1], other[..i] + other[i + 1..]);
      TotalConcat(other[..i], other[i + 1..]);
      SplitAt(other, i);
      TotalSplit(other[..i], last, other[i + 1..]);
    }
  }

  lemma OneMore(price: real, quantity: int)
    ensures price * (quantity + 1) as real == price * quantity as real + price
  {
    assert (quantity + 1) as real == quantity as real + 1.0;
  }

  lemma SplitCosts(before: real, cost: real, after: real, total: real, cost': real, total': real, price: real)
    requires total == before + cost + after && total' == before + cost' + after && cost' == cost + price
    ensures total' == total + price
  {
  }

  /** One more unit of a line costs exactly its price. */
  lemma OneUnitMore(before: seq<OrderItem>, item: OrderItem, after: seq<OrderItem>)
    ensures Total(before + [item.(quantity := item.quantity + 1)] + after) == Total(before + [item] + after) + item.price
  {
    var item' := item.(quantity := item.quantity + 1);
    TotalSplit(before, item, after);
    TotalSplit(before, item', after);
    OneMore(item.price, item.quantity);
    SplitCosts(Total(before), Cost(item), Total(after), Total(before + [item] + after), Cost(item'), Total(before + [item'] + after), item.price);
  }

  /** A line of quantity 0 costs nothing. */
  lemma NoUnits(before: seq<OrderItem>, item: OrderItem, after: seq<OrderItem>)
    requires item.quantity == 0
    ensures Total(before + [item] + after) == Total(before + after)
  {
    TotalSplit(before, item, after);
    TotalConcat(before, after);
  }

  lemma {:induction false} SameCost(items: seq<OrderItem>, other: seq<OrderItem>)
    requires |items| == |other|
    requires forall i | 0 <= i < |items| :: items[i].price == other[i].price && items[i].quantity == other[i].quantity
    ensures Total(items) == Total(other) && UnitPrices(items) == UnitPrices(other)
  {
    if items != [] {
      assert items == [items[0]] + items[1..] && other == [other[0]] + other[1..];
      SameCost(items[1..], other[1..]);
      TotalConcat([items[0]], items[1..]);
      TotalConcat([other[0]], other[1..]);
      TotalOfOne(items[0]);
      TotalOfOne(other[0]);
    }
  }
}
