/** The rows of the shop's order, order_item and cart_item tables as values,
    and the functions over those tables that the store's operations are
    specified by. Rows are identified by their position in their table. */
module Tables {
  import opened Common
  import opened Totals

  /** A row of the order table (its status starts as "Pending"). */
  datatype Order = Order(userId: nat, status: string)

  /** A row of the order_item table: which order, which product, how many. */
  datatype OrderItem = OrderItem(orderId: nat, productId: nat, quantity: int)

  /** A row of the cart_item table: which cart, which product, how many. */
  datatype CartItem = CartItem(cartId: nat, productId: nat, quantity: int)

  // ---------------------------------------------------------------------
  // Orders and their items
  // ---------------------------------------------------------------------

  /** `Order.items`: the rows of order `oid`, in table order. */
  function ItemsOf(items: seq<OrderItem>, oid: nat): (r: seq<OrderItem>)
    ensures forall it :: it in r <==> it in items && it.orderId == oid
  {
    if items == [] then []
    else (if items[0].orderId == oid then [items[0]] else []) + ItemsOf(items[1..], oid)
  }

  /** The order_item table once order `oid` and its rows are deleted. */
  function Without(items: seq<OrderItem>, oid: nat): (r: seq<OrderItem>)
    ensures forall it :: it in r <==> it in items && it.orderId != oid
  {
    if items == [] then []
    else (if items[0].orderId != oid then [items[0]] else []) + Without(items[1..], oid)
  }

  /** Deleting an order's rows keeps every other row, once each: the order's rows
      and the remaining rows together are exactly the table. */
  lemma {:induction false} ItemsOfPartition(items: seq<OrderItem>, oid: nat)
    ensures multiset(ItemsOf(items, oid)) + multiset(Without(items, oid)) == multiset(items)
  {
    if items != [] {
      ItemsOfPartition(items[1..], oid);
      assert items == [items[0]] + items[1..];
    }
  }

  /** A row appended to the table joins the item list of its own order and of no other. */
  lemma {:induction false} ItemsOfAppend(items: seq<OrderItem>, it: OrderItem, oid: nat)
    ensures ItemsOf(items + [it], oid) == ItemsOf(items, oid) + (if it.orderId == oid then [it] else [])
  {
    if items == [] {
      assert items + [it] == [it];
    } else {
      assert (items + [it])[1..] == items[1..] + [it];
      ItemsOfAppend(items[1..], it, oid);
    }
  }

  /** Deleting order `oid` from a table where it has no rows changes nothing. */
  lemma {:induction false} WithoutAbsent(items: seq<OrderItem>, oid: nat)
    requires ItemsOf(items, oid) == []
    ensures Without(items, oid) == items
  {
    if items != [] {
      assert ItemsOf(items, oid) == ItemsOf(items[1..], oid);
      WithoutAbsent(items[1..], oid);
      assert items == [items[0]] + items[1..];
    }
  }

  /** A row appended to the table survives the deletion of order `oid` exactly when it
      belongs to another order. */
  lemma {:induction false} WithoutAppend(items: seq<OrderItem>, it: OrderItem, oid: nat)
    ensures Without(items + [it], oid) == Without(items, oid) + (if it.orderId != oid then [it] else [])
  {
    if items == [] {
      assert items + [it] == [it];
      assert [it][1..] == [];
    } else {
      assert (items + [it])[0] == items[0];
      assert (items + [it])[1..] == items[1..] + [it];
      WithoutAppend(items[1..], it, oid);
    }
  }

  // ---------------------------------------------------------------------
  // Stock
  // ---------------------------------------------------------------------

  /** The total quantity that the rows `items` take of product `pid`. */
  function QuantityFor(items: seq<OrderItem>, pid: nat): int {
    if items == [] then 0
    else
      var last := items[|items| - 1];
      QuantityFor(items[..|items| - 1], pid) + (if last.productId == pid then last.quantity else 0)
  }

  /** Extending a run of rows by one more row adds that row's quantity to its own product only. */
  lemma QuantityForStep(items: seq<OrderItem>, i: nat, pid: nat)
    requires i < |items|
    ensures QuantityFor(items[..i + 1], pid)
         == QuantityFor(items[..i], pid) + (if items[i].productId == pid then items[i].quantity else 0)
  {
    assert items[..i + 1][..i] == items[..i];
  }

  /** Stock levels after every product gets back what the rows `items` took of it. */
  function Restock(stock: map<nat, int>, items: seq<OrderItem>): map<nat, int> {
    map pid | pid in stock :: stock[pid] + QuantityFor(items, pid)
  }

  /** Stock levels that are each up by what `items` took of that product are the restocked levels. */
  lemma RestockPointwise(before: map<nat, int>, after: map<nat, int>, items: seq<OrderItem>)
    requires after.Keys == before.Keys
    requires forall pid | pid in before :: after[pid] == before[pid] + QuantityFor(items, pid)
    ensures after == Restock(before, items)
  {
  }

  /** Stock levels after the rows `placed` were created one after another, each
      taking its quantity from its product's stock. */
  function Consume(stock: map<nat, int>, placed: seq<OrderItem>): (r: map<nat, int>)
    requires forall i | 0 <= i < |placed| :: placed[i].productId in stock
    ensures r.Keys == stock.Keys
  {
    if placed == [] then stock
    else
      var before := Consume(stock, placed[..|placed| - 1]);
      var last := placed[|placed| - 1];
      before[last.productId := before[last.productId] - last.quantity]
  }

  /** After a run of creations, each product's stock is down by the quantities the run took of it. */
  lemma {:induction false} ConsumeAt(stock: map<nat, int>, placed: seq<OrderItem>, pid: nat)
    requires forall i | 0 <= i < |placed| :: placed[i].productId in stock
    requires pid in stock
    ensures Consume(stock, placed)[pid] == stock[pid] - QuantityFor(placed, pid)
  {
    if placed != [] {
      ConsumeAt(stock, placed[..|placed| - 1], pid);
    }
  }

  /** Creating order items and then giving back what they took restores every
      product's original stock. */
  lemma {:induction false} RestockUndoesConsume(stock: map<nat, int>, placed: seq<OrderItem>)
    requires forall i | 0 <= i < |placed| :: placed[i].productId in stock
    ensures Restock(Consume(stock, placed), placed) == stock
  {
    var after := Restock(Consume(stock, placed), placed);
    forall pid | pid in stock
      ensures after[pid] == stock[pid]
    {
      ConsumeAt(stock, placed, pid);
    }
  }

  /** Rows with non-negative quantities never take stock away when they are given back. */
  lemma {:induction false} QuantityForNonNegative(items: seq<OrderItem>, pid: nat)
    requires forall it | it in items :: it.quantity >= 0
    ensures QuantityFor(items, pid) >= 0
  {
    if items != [] {
      assert items[|items| - 1] in items;
      assert forall it | it in items[..|items| - 1] :: it in items;
      QuantityForNonNegative(items[..|items| - 1], pid);
    }
  }

  /** Giving back one created row undoes that row's creation. */
  lemma RestockSingle(stock: map<nat, int>, oid: nat, pid: nat, q: int)
    requires pid in stock
    ensures Restock(stock[pid := stock[pid] - q], [OrderItem(oid, pid, q)]) == stock
  {
    assert [OrderItem(oid, pid, q)][..0] == [];
    RestockPointwise(stock[pid := stock[pid] - q], stock, [OrderItem(oid, pid, q)]);
  }

  /** Giving back rows of non-negative quantity keeps non-negative stock non-negative. */
  lemma RestockKeepsStockNonNegative(stock: map<nat, int>, items: seq<OrderItem>)
    requires forall pid | pid in stock :: stock[pid] >= 0
    requires forall it | it in items :: it.quantity >= 0
    ensures forall pid | pid in Restock(stock, items) :: Restock(stock, items)[pid] >= 0
  {
    forall pid | pid in stock ensures QuantityFor(items, pid) >= 0 {
      QuantityForNonNegative(items, pid);
    }
  }

  /** The creation guard lets a negative quantity through, and giving such a row back lowers
      the stock: a row of -5 created on an empty product, whose 5 units are then sold
      elsewhere, leaves that product at -5 when its order is cancelled. */
  lemma NegativeRowCanDriveStockNegative()
    ensures var row := OrderItem(1, 7, -5);
            var stock := map[7 := 0];
            stock[7] >= row.quantity
            && Restock(Consume(Consume(stock, [row]), [OrderItem(2, 7, 5)]), [row])[7] == -5
  {
    var row := OrderItem(1, 7, -5);
    var stock := map[7 := 0];
    assert [row][..0] == [];
    assert [OrderItem(2, 7, 5)][..0] == [];
    assert Consume(stock, [row]) == map[7 := 5];
    assert Consume(map[7 := 5], [OrderItem(2, 7, 5)]) == map[7 := 0];
    assert QuantityFor([row], 7) == -5;
  }

  // ---------------------------------------------------------------------
  // Totals
  // ---------------------------------------------------------------------

  /** The priced lines of order `oid`, in table order; `price` maps product ids to unit prices. */
  function OrderLines(items: seq<OrderItem>, oid: nat, price: map<nat, int>): seq<Line>
    requires forall it | it in items :: it.productId in price
  {
    if items == [] then []
    else
      (if items[0].orderId == oid then [Line(price[items[0].productId], items[0].quantity)] else [])
      + OrderLines(items[1..], oid, price)
  }

  /** The priced lines of cart `cartId`, in table order. */
  function CartLines(items: seq<CartItem>, cartId: nat, price: map<nat, int>): seq<Line>
    requires forall it | it in items :: it.productId in price
  {
    if items == [] then []
    else
      (if items[0].cartId == cartId then [Line(price[items[0].productId], items[0].quantity)] else [])
      + CartLines(items[1..], cartId, price)
  }

  /** Each row priced: its product's unit price with the row's quantity, in row order. */
  function Priced(rows: seq<OrderItem>, price: map<nat, int>): (r: seq<Line>)
    requires forall it | it in rows :: it.productId in price
    ensures |r| == |rows|
    ensures forall j | 0 <= j < |rows| :: r[j] == Line(price[rows[j].productId], rows[j].quantity)
  {
    if rows == [] then []
    else [Line(price[rows[0].productId], rows[0].quantity)] + Priced(rows[1..], price)
  }

  /** The priced lines of an order are exactly its own rows, each priced, in table order. */
  lemma {:induction false} OrderLinesMatchItems(items: seq<OrderItem>, oid: nat, price: map<nat, int>)
    requires forall it | it in items :: it.productId in price
    ensures OrderLines(items, oid, price) == Priced(ItemsOf(items, oid), price)
  {
    if items != [] {
      OrderLinesMatchItems(items[1..], oid, price);
      var rest := ItemsOf(items[1..], oid);
      if items[0].orderId == oid {
        assert ItemsOf(items, oid)[1..] == rest;
      } else {
        assert ItemsOf(items, oid) == rest;
      }
    }
  }

  /** An order's total is its first row's line total, when that row belongs to it, plus the total of the rest. */
  lemma OrderSumUnfold(items: seq<OrderItem>, oid: nat, price: map<nat, int>)
    requires forall it | it in items :: it.productId in price
    requires items != []
    ensures Sum(OrderLines(items, oid, price))
         == (if items[0].orderId == oid then LineTotal(Line(price[items[0].productId], items[0].quantity)) else 0)
            + Sum(OrderLines(items[1..], oid, price))
  {
    var head := if items[0].orderId == oid then [Line(price[items[0].productId], items[0].quantity)] else [];
    SumAppend(head, OrderLines(items[1..], oid, price));
  }

  /** A new row changes the total of its own order by its line total and no other order's total. */
  lemma {:induction false} OrderTotalAfterAppend(items: seq<OrderItem>, it: OrderItem, oid: nat, price: map<nat, int>)
    requires forall x | x in items :: x.productId in price
    requires it.productId in price
    ensures Sum(OrderLines(items + [it], oid, price))
         == Sum(OrderLines(items, oid, price))
            + (if it.orderId == oid then LineTotal(Line(price[it.productId], it.quantity)) else 0)
  {
    var longer := items + [it];
    assert forall x | x in longer :: x.productId in price;
    OrderSumUnfold(longer, oid, price);
    if items == [] {
      assert longer[1..] == [];
    } else {
      assert longer[1..] == items[1..] + [it];
      OrderTotalAfterAppend(items[1..], it, oid, price);
      OrderSumUnfold(items, oid, price);
    }
  }

  /** Deleting row `k` lowers the total of its own order by its line total and leaves every
      other order's total as it was. */
  lemma {:induction false} OrderTotalAfterRemove(items: seq<OrderItem>, k: nat, oid: nat, price: map<nat, int>)
    requires forall x | x in items :: x.productId in price
    requires k < |items|
    ensures Sum(OrderLines(items[..k] + items[k + 1..], oid, price))
         == Sum(OrderLines(items, oid, price))
            - (if items[k].orderId == oid then LineTotal(Line(price[items[k].productId], items[k].quantity)) else 0)
  {
    var shorter := items[..k] + items[k + 1..];
    OrderSumUnfold(items, oid, price);
    if k == 0 {
      assert shorter == items[1..];
    } else {
      assert shorter[0] == items[0] && shorter[1..] == items[1..][..k - 1] + items[1..][k..];
      assert forall x | x in shorter :: x.productId in price;
      OrderTotalAfterRemove(items[1..], k - 1, oid, price);
      OrderSumUnfold(shorter, oid, price);
    }
  }

  /** Deleting order `oid` with its rows leaves it with no lines and every other order's lines as they were. */
  lemma {:induction false} OrderLinesWithout(items: seq<OrderItem>, oid: nat, other: nat, price: map<nat, int>)
    requires forall x | x in items :: x.productId in price
    ensures OrderLines(Without(items, oid), oid, price) == []
    ensures other != oid ==> OrderLines(Without(items, oid), other, price) == OrderLines(items, other, price)
  {
    if items != [] {
      OrderLinesWithout(items[1..], oid, other, price);
      var rest := Without(items[1..], oid);
      if items[0].orderId != oid {
        assert ([items[0]] + rest)[1..] == rest;
      } else {
        assert Without(items, oid) == rest;
      }
    }
  }

  // ---------------------------------------------------------------------
  // Carts
  // ---------------------------------------------------------------------

  predicate Matches(it: CartItem, cartId: nat, productId: nat) {
    it.cartId == cartId && it.productId == productId
  }

  /** The position of the first cart row for (`cartId`, `productId`), as the query's `.first()` finds it. */
  function FirstMatch(items: seq<CartItem>, cartId: nat, productId: nat): (r: Option<nat>)
    ensures r.None? <==> forall i | 0 <= i < |items| :: !Matches(items[i], cartId, productId)
    ensures r.Some? ==> r.value < |items| && Matches(items[r.value], cartId, productId)
    ensures r.Some? ==> forall i | 0 <= i < r.value :: !Matches(items[i], cartId, productId)
  {
    if items == [] then None
    else if Matches(items[0], cartId, productId) then Some(0)
    else match FirstMatch(items[1..], cartId, productId)
      case None => None
      case Some(i) => Some(i + 1)
  }

  /** A cart with no rows has no priced lines. */
  lemma {:induction false} CartLinesEmpty(items: seq<CartItem>, cartId: nat, price: map<nat, int>)
    requires forall it | it in items :: it.productId in price
    requires forall it | it in items :: it.cartId != cartId
    ensures CartLines(items, cartId, price) == []
  {
    if items != [] {
      assert items[0] in items;
      CartLinesEmpty(items[1..], cartId, price);
    }
  }

  /** A cart's total is its first row's line total, when that row belongs to it, plus the total of the rest. */
  lemma CartSumUnfold(items: seq<CartItem>, cartId: nat, price: map<nat, int>)
    requires forall it | it in items :: it.productId in price
    requires items != []
    ensures Sum(CartLines(items, cartId, price))
         == (if items[0].cartId == cartId then LineTotal(Line(price[items[0].productId], items[0].quantity)) else 0)
            + Sum(CartLines(items[1..], cartId, price))
  {
    var head := if items[0].cartId == cartId then [Line(price[items[0].productId], items[0].quantity)] else [];
    SumAppend(head, CartLines(items[1..], cartId, price));
  }

  /** Changing the quantity of row `i` changes its own cart's total by the difference of the
      two line totals and no other cart's total. */
  lemma {:induction false} CartTotalAfterUpdate(items: seq<CartItem>, i: nat, q: int, cartId: nat, price: map<nat, int>)
    requires forall x | x in items :: x.productId in price
    requires i < |items|
    ensures forall x | x in items[i := items[i].(quantity := q)] :: x.productId in price
    ensures Sum(CartLines(items[i := items[i].(quantity := q)], cartId, price))
         == Sum(CartLines(items, cartId, price))
            + (if items[i].cartId == cartId
               then LineTotal(Line(price[items[i].productId], q)) - LineTotal(Line(price[items[i].productId], items[i].quantity))
               else 0)
  {
    var updated := items[i := items[i].(quantity := q)];
    assert forall x | x in updated :: x.productId in price by {
      forall x | x in updated ensures x.productId in price {
        var j :| 0 <= j < |updated| && updated[j] == x;
        assert items[j] in items;
      }
    }
    CartSumUnfold(items, cartId, price);
    CartSumUnfold(updated, cartId, price);
    if i == 0 {
      assert updated[1..] == items[1..];
    } else {
      assert updated[1..] == items[1..][i - 1 := items[i].(quantity := q)];
      CartTotalAfterUpdate(items[1..], i - 1, q, cartId, price);
    }
  }

  /** Deleting row `i` lowers its own cart's total by its line total and no other cart's total. */
  lemma {:induction false} CartTotalAfterRemove(items: seq<CartItem>, i: nat, cartId: nat, price: map<nat, int>)
    requires forall x | x in items :: x.productId in price
    requires i < |items|
    ensures Sum(CartLines(items[..i] + items[i + 1..], cartId, price))
         == Sum(CartLines(items, cartId, price))
            - (if items[i].cartId == cartId then LineTotal(Line(price[items[i].productId], items[i].quantity)) else 0)
  {
    var shorter := items[..i] + items[i + 1..];
    CartSumUnfold(items, cartId, price);
    if i == 0 {
      assert shorter == items[1..];
    } else {
      assert shorter[0] == items[0] && shorter[1..] == items[1..][..i - 1] + items[1..][i..];
      assert forall x | x in shorter :: x.productId in price;
      CartTotalAfterRemove(items[1..], i - 1, cartId, price);
      CartSumUnfold(shorter, cartId, price);
    }
  }
}
