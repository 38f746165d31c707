/** The shop's entities and the bookkeeping that updates them: stock changes on
    products, creation and cancellation of order items and orders, and the
    cart-item updates. The Store stands for the database session; each of its
    methods ends where the source commits. */
module Model {
  import opened Common
  import opened Totals
  import opened Tables

  /** A customer account. `passwordHash` is None until a password is set. */
  class User {
    var username: string
    var email: string
    var passwordHash: Option<string>

    constructor (username: string, email: string)
      ensures this.username == username && this.email == email && passwordHash == None
    {
      this.username := username;
      this.email := email;
      passwordHash := None;
    }

    /** Stores `hash(password)` as the secret; `hash` stands for the
        password-hashing library. */
    method SetPassword(hash: string -> string, password: string)
      modifies this`passwordHash
      ensures passwordHash == Some(hash(password))
    {
      passwordHash := Some(hash(password));
    }

    /** Copies `username`, then `email`, from `data`, raising on the first key that is
        missing; a missing email leaves the username already updated. */
    method ImportData(data: map<string, string>) returns (st: Status)
      modifies this`username, this`email
      ensures "username" !in data ==>
                st == ValidationError("Invalid customer: missing username")
                && username == old(username) && email == old(email)
      ensures "username" in data && "email" !in data ==>
                st == ValidationError("Invalid customer: missing email")
                && username == data["username"] && email == old(email)
      ensures "username" in data && "email" in data ==>
                st == Ok && username == data["username"] && email == data["email"]
    {
      if "username" !in data {
        return ValidationError("Invalid customer: missing username");
      }
      username := data["username"];
      if "email" !in data {
        return ValidationError("Invalid customer: missing email");
      }
      email := data["email"];
      st := Ok;
    }
  }

  /** A catalogue entry with its stock level. The price is in minor currency units. */
  class Product {
    const id: nat
    var name: string
    var price: int
    var description: Option<string>
    var quantity: int

    constructor (id: nat, name: string, price: int, description: Option<string>, quantity: int)
      ensures this.id == id && this.name == name && this.price == price
      ensures this.description == description && this.quantity == quantity
    {
      this.id := id;
      this.name := name;
      this.price := price;
      this.description := description;
      this.quantity := quantity;
    }

    /** Copies `name` from `data`, the one key a product import needs. */
    method ImportData(data: map<string, string>) returns (st: Status)
      modifies this`name
      ensures "name" in data ==> st == Ok && name == data["name"]
      ensures "name" !in data ==> st == ValidationError("Invalid product: missing name") && name == old(name)
    {
      if "name" !in data {
        return ValidationError("Invalid product: missing name");
      }
      name := data["name"];
      st := Ok;
    }

    /** Takes `q` from stock when there is at least that much, and raises otherwise.
        Whatever the sign of `q`, a successful call leaves the stock non-negative. */
    method ReduceQuantity(q: int) returns (st: Status)
      modifies this`quantity
      ensures old(quantity) >= q ==> st == Ok && quantity == old(quantity) - q
      ensures old(quantity) < q ==> st == ValidationError(InsufficientStock) && quantity == old(quantity)
      ensures st == Ok ==> quantity >= 0
    {
      if quantity >= q {
        quantity := quantity - q;
        st := Ok;
      } else {
        st := ValidationError(InsufficientStock);
      }
    }

    /** Adds `q` to stock, with no check of any kind. */
    method IncreaseQuantity(q: int)
      modifies this`quantity
      ensures quantity == old(quantity) + q
    {
      quantity := quantity + q;
    }
  }

  /** The tables the bookkeeping works on. Products are objects, keyed by their id;
      orders, order items and cart items are rows. */
  class Store {
    var products: map<nat, Product>
    var orders: map<nat, Order>
    var orderItems: seq<OrderItem>
    var cartItems: seq<CartItem>

    /** Every product sits under its own id (so distinct ids are distinct objects),
        and every row refers to an existing order and an existing product. */
    ghost predicate Valid()
      reads this
    {
      && (forall pid | pid in products :: products[pid].id == pid)
      && (forall it | it in orderItems :: it.orderId in orders && it.productId in products)
      && (forall it | it in cartItems :: it.productId in products)
    }

    /** The stock level of every product, by id. */
    ghost function Stock(): (r: map<nat, int>)
      reads this`products, products.Values
      ensures r.Keys == products.Keys
      ensures forall pid | pid in products :: r[pid] == products[pid].quantity
    {
      map pid | pid in products :: products[pid].quantity
    }

    /** The unit price of every product, by id. */
    function Prices(): (r: map<nat, int>)
      reads this`products, products.Values
      ensures r.Keys == products.Keys
      ensures forall pid | pid in products :: r[pid] == products[pid].price
    {
      map pid | pid in products :: products[pid].price
    }

    constructor (products: map<nat, Product>, orders: map<nat, Order>,
                 orderItems: seq<OrderItem>, cartItems: seq<CartItem>)
      requires forall pid | pid in products :: products[pid].id == pid
      requires forall it | it in orderItems :: it.orderId in orders && it.productId in products
      requires forall it | it in cartItems :: it.productId in products
      ensures Valid()
      ensures this.products == products && this.orders == orders
      ensures this.orderItems == orderItems && this.cartItems == cartItems
    {
      this.products := products;
      this.orders := orders;
      this.orderItems := orderItems;
      this.cartItems := cartItems;
    }

    /** `Order.get_total_price`: the sum of price times quantity over the order's items. */
    function OrderTotal(oid: nat): (r: int)
      requires Valid()
      reads this, products.Values
      ensures r == Sum(Priced(ItemsOf(orderItems, oid), Prices()))
      ensures ItemsOf(orderItems, oid) == [] ==> r == 0
    {
      OrderLinesMatchItems(orderItems, oid, Prices());
      Sum(OrderLines(orderItems, oid, Prices()))
    }

    /** `OrderItem.get_total_price` of row `k`: its product's price times its quantity. */
    function ItemTotal(k: nat): (r: int)
      requires Valid() && k < |orderItems|
      reads this, products.Values
      ensures r == Sum(OrderLines([orderItems[k]], orderItems[k].orderId, Prices()))
    {
      assert orderItems[k] in orderItems;
      products[orderItems[k].productId].price * orderItems[k].quantity
    }

    /** The item totals of order `oid` among the first `n` rows, added up row by row. */
    ghost function ItemTotalsUpTo(oid: nat, n: nat): int
      requires Valid() && n <= |orderItems|
      reads this, products.Values
    {
      if n == 0 then 0
      else ItemTotalsUpTo(oid, n - 1) + (if orderItems[n - 1].orderId == oid then ItemTotal(n - 1) else 0)
    }

    /** An order's total is the sum of the item totals of its own rows. */
    lemma OrderTotalIsSumOfItemTotals(oid: nat)
      requires Valid()
      ensures OrderTotal(oid) == ItemTotalsUpTo(oid, |orderItems|)
    {
      OrderTotalUpTo(oid, |orderItems|);
      assert orderItems[..|orderItems|] == orderItems;
    }

    lemma {:induction false} OrderTotalUpTo(oid: nat, n: nat)
      requires Valid() && n <= |orderItems|
      ensures forall it | it in orderItems[..n] :: it.productId in Prices()
      ensures Sum(OrderLines(orderItems[..n], oid, Prices())) == ItemTotalsUpTo(oid, n)
    {
      var prices := Prices();
      assert forall it | it in orderItems[..n] :: it.productId in prices by {
        forall it | it in orderItems[..n] ensures it.productId in prices {
          assert it in orderItems;
        }
      }
      if n > 0 {
        OrderTotalUpTo(oid, n - 1);
        var last := orderItems[n - 1];
        assert last in orderItems;
        assert orderItems[..n] == orderItems[..n - 1] + [last];
        OrderTotalAfterAppend(orderItems[..n - 1], last, oid, prices);
      }
    }

    /** `Cart.calculate_total_cost`: the sum of price times quantity over the cart's items. */
    function CartTotal(cartId: nat): (r: int)
      requires Valid()
      reads this, products.Values
      ensures (forall it | it in cartItems :: it.cartId != cartId) ==> r == 0
    {
      assert (forall it | it in cartItems :: it.cartId != cartId) ==> CartLines(cartItems, cartId, Prices()) == [] by {
        if forall it | it in cartItems :: it.cartId != cartId {
          CartLinesEmpty(cartItems, cartId, Prices());
        }
      }
      Sum(CartLines(cartItems, cartId, Prices()))
    }

    /** `OrderItem.create`: when the product has at least `q` in stock, records one row
        of `q` for order `oid` and takes `q` from the product; otherwise raises and
        changes nothing. */
    method CreateOrderItem(oid: nat, pid: nat, q: int) returns (st: Status)
      requires Valid() && oid in orders && pid in products
      modifies this`orderItems, {products[pid]}`quantity
      ensures Valid()
      ensures old(Stock())[pid] >= q ==>
                st == Ok
                && orderItems == old(orderItems) + [OrderItem(oid, pid, q)]
                && Stock() == old(Stock())[pid := old(Stock())[pid] - q]
      ensures old(Stock())[pid] < q ==>
                st == ValidationError(InsufficientStock)
                && orderItems == old(orderItems) && Stock() == old(Stock())
      ensures Prices() == old(Prices())
    {
      var product := products[pid];
      if product.quantity >= q {
        var item := OrderItem(oid, pid, q);
        st := product.ReduceQuantity(q);
        orderItems := orderItems + [item];
      } else {
        st := ValidationError(InsufficientStock);
      }
    }

    /** `Order.create`, a copy of `OrderItem.create`: the same guard and the same
        effect on stock and on the order_item rows. */
    method CreateOrder(oid: nat, pid: nat, q: int) returns (st: Status)
      requires Valid() && oid in orders && pid in products
      modifies this`orderItems, {products[pid]}`quantity
      ensures Valid()
      ensures old(Stock())[pid] >= q ==>
                st == Ok
                && orderItems == old(orderItems) + [OrderItem(oid, pid, q)]
                && Stock() == old(Stock())[pid := old(Stock())[pid] - q]
      ensures old(Stock())[pid] < q ==>
                st == ValidationError(InsufficientStock)
                && orderItems == old(orderItems) && Stock() == old(Stock())
      ensures Prices() == old(Prices())
    {
      st := CreateOrderItem(oid, pid, q);
    }

    /** Gives each row's quantity back to the row's product, one row after another. */
    method ReturnStock(items: seq<OrderItem>)
      requires Valid()
      requires forall it | it in items :: it.productId in products
      modifies products.Values`quantity
      ensures Stock() == Restock(old(Stock()), items)
      ensures Prices() == old(Prices())
    {
      var i := 0;
      while i < |items|
        invariant 0 <= i <= |items|
        invariant forall pid | pid in products ::
                    products[pid].quantity == old(products[pid].quantity) + QuantityFor(items[..i], pid)
        invariant forall pid | pid in products :: products[pid].price == old(products[pid].price)
      {
        assert items[i] in items;
        var item := items[i];
        products[item.productId].IncreaseQuantity(item.quantity);
        forall pid | pid in products
          ensures products[pid].quantity == old(products[pid].quantity) + QuantityFor(items[..i + 1], pid)
        {
          QuantityForStep(items, i, pid);
        }
        i := i + 1;
      }
      assert items[..i] == items;
      RestockPointwise(old(Stock()), Stock(), items);
    }

    /** `Order.cancel`: gives every item's quantity back to its product, then deletes the
        order together with its rows. */
    method CancelOrder(oid: nat)
      requires Valid() && oid in orders
      modifies this`orders, this`orderItems, products.Values`quantity
      ensures Valid()
      ensures Stock() == Restock(old(Stock()), old(ItemsOf(orderItems, oid)))
      ensures orders == old(orders) - {oid}
      ensures orderItems == old(Without(orderItems, oid))
      ensures Prices() == old(Prices())
    {
      ghost var stock, prices := Stock(), Prices();
      ReturnStock(ItemsOf(orderItems, oid));
      ghost var restocked := Stock();
      orders := orders - {oid};
      orderItems := Without(orderItems, oid);
      assert Stock() == restocked && Prices() == prices;
    }

    /** `OrderItem.cancel` on row `k`: gives its quantity back to its product and deletes
        that row alone. */
    method CancelOrderItem(k: nat)
      requires Valid() && k < |orderItems|
      modifies this`orderItems, {products[orderItems[k].productId]}`quantity
      ensures Valid()
      ensures var it := old(orderItems[k]);
              Stock() == old(Stock())[it.productId := old(Stock())[it.productId] + it.quantity]
      ensures orderItems == old(orderItems[..k] + orderItems[k + 1..])
      ensures Prices() == old(Prices())
    {
      var item := orderItems[k];
      assert item in orderItems;
      products[item.productId].IncreaseQuantity(item.quantity);
      assert forall it | it in orderItems[..k] + orderItems[k + 1..] :: it in orderItems;
      orderItems := orderItems[..k] + orderItems[k + 1..];
    }

    /** `Cart.update_quantity`: sets the quantity of the first row of cart `cartId` for
        product `pid`; with no such row it does nothing. */
    method UpdateCartQuantity(cartId: nat, pid: nat, q: int)
      requires Valid()
      modifies this`cartItems
      ensures Valid()
      ensures Stock() == old(Stock()) && Prices() == old(Prices())
      ensures match old(FirstMatch(cartItems, cartId, pid))
              case None => cartItems == old(cartItems)
              case Some(i) => cartItems == old(cartItems[i := cartItems[i].(quantity := q)])
    {
      var found := FirstMatch(cartItems, cartId, pid);
      if found.Some? {
        var i := found.value;
        assert forall it | it in cartItems[i := cartItems[i].(quantity := q)] ::
                 it in cartItems || it == cartItems[i].(quantity := q);
        cartItems := cartItems[i := cartItems[i].(quantity := q)];
      }
    }

    /** `Cart.remove_item`: deletes the first row of cart `cartId` for product `pid`;
        with no such row it does nothing. */
    method RemoveCartItem(cartId: nat, pid: nat)
      requires Valid()
      modifies this`cartItems
      ensures Valid()
      ensures Stock() == old(Stock()) && Prices() == old(Prices())
      ensures match old(FirstMatch(cartItems, cartId, pid))
              case None => cartItems == old(cartItems)
              case Some(i) => cartItems == old(cartItems[..i] + cartItems[i + 1..])
    {
      var found := FirstMatch(cartItems, cartId, pid);
      if found.Some? {
        var i := found.value;
        assert forall it | it in cartItems[..i] + cartItems[i + 1..] :: it in cartItems;
        cartItems := cartItems[..i] + cartItems[i + 1..];
      }
    }
  }
}
