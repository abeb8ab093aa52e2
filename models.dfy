/** The shop's entities (website/models.py) as values, the quantities derived
    from an order's items, and the integrity rules the tables keep.
    Money is counted in integer cents; timestamps are opaque integers. */
module Models {
  import opened Sums

  type UserId = nat
  type CustomerId = nat
  type CategoryId = nat
  type ProductId = nat
  type OrderId = nat
  type Cents = int
  type Timestamp = int

  datatype Option<T> = None | Some(value: T)

  /** What the database or the views raise. */
  datatype Error =
    | NoCustomer          // the acting user has no linked customer
    | ProductNotFound     // Product.objects.get with an unknown id
    | DuplicateName       // a unique name constraint is violated
    | MissingShipping     // a shipping field is absent from the request
    | InvalidTotal        // the submitted total is absent or not a number
    | AddressNotFound     // Address.objects.get finds no row
    | MultipleAddresses   // Address.objects.get finds more than one row

  datatype Outcome = Pass | Fail(error: Error)
  datatype Result<T> = Ok(value: T) | Err(error: Error)

  datatype User = User(firstName: string, lastName: string, email: string)
  datatype Customer = Customer(user: Option<UserId>, name: string, email: string)
  datatype Product = Product(name: string, price: Cents)
  datatype Order = Order(customer: CustomerId, orderDate: Timestamp, complete: bool,
                         transactionId: Option<Timestamp>)
  datatype Address = Address(customer: CustomerId, order: OrderId,
                             street: string, city: string, postalCode: string)

  /** An order item is identified by its (order, product) pair and stores a quantity. */
  type ItemKey = (OrderId, ProductId)

  /** Field default of OrderItem.quantity. */
  const DefaultQuantity: int := 0

  /** A freshly created order: its field defaults, stamped with its creation time.
      It is incomplete, so it is a cart of its customer. */
  function NewOrder(c: CustomerId, now: Timestamp): (r: Order)
    ensures !r.complete && r.transactionId.None?
    ensures r.customer == c && r.orderDate == now
  {
    Order(c, now, false, None)
  }

  /** The products that have an item in order `o`. */
  function ProductsOf(items: map<ItemKey, int>, o: OrderId): (ps: set<ProductId>)
    ensures forall p :: p in ps <==> (o, p) in items
  {
    set k | k in items && k.0 == o :: k.1
  }

  /** Every item refers to a product of the catalogue. */
  ghost predicate ItemsPriced(items: map<ItemKey, int>, products: map<ProductId, Product>) {
    forall k :: k in items ==> k.1 in products
  }

  /** OrderItem.get_total: the price of the product times the quantity. */
  function LineTotal(price: Cents, quantity: int): (r: Cents)
    ensures price >= 0 && quantity >= 0 ==> r >= 0
  {
    price * quantity
  }

  /** The line total of each item of order `o`, by product. */
  function LineTotals(items: map<ItemKey, int>, products: map<ProductId, Product>, o: OrderId): map<ProductId, Cents>
    requires ItemsPriced(items, products)
  {
    map p | p in ProductsOf(items, o) :: LineTotal(products[p].price, items[(o, p)])
  }

  /** The quantity of each item of order `o`, by product. */
  function Quantities(items: map<ItemKey, int>, o: OrderId): map<ProductId, int> {
    map p | p in ProductsOf(items, o) :: items[(o, p)]
  }

  /** Order.get_cart_total: the sum of the line totals of the order's items. */
  function CartTotal(items: map<ItemKey, int>, products: map<ProductId, Product>, o: OrderId): (r: Cents)
    requires ItemsPriced(items, products)
    ensures ProductsOf(items, o) == {} ==> r == 0
  {
    assert ProductsOf(items, o) == {} ==> LineTotals(items, products, o) == map[];
    SumValues(LineTotals(items, products, o))
  }

  /** Order.get_cart_items: the sum of the quantities of the order's items. */
  function CartItems(items: map<ItemKey, int>, o: OrderId): (r: int)
    ensures ProductsOf(items, o) == {} ==> r == 0
  {
    assert ProductsOf(items, o) == {} ==> Quantities(items, o) == map[];
    SumValues(Quantities(items, o))
  }

  /** Item (o, p) contributes price * quantity to the cart total and its
      quantity to the item count; the other items make up the rest. */
  lemma CartSplit(items: map<ItemKey, int>, products: map<ProductId, Product>, o: OrderId, p: ProductId)
    requires ItemsPriced(items, products)
    requires (o, p) in items
    ensures CartTotal(items, products, o)
         == LineTotal(products[p].price, items[(o, p)]) + CartTotal(items - {(o, p)}, products, o)
    ensures CartItems(items, o) == items[(o, p)] + CartItems(items - {(o, p)}, o)
  {
    var rest := items - {(o, p)};
    assert ProductsOf(rest, o) == ProductsOf(items, o) - {p};
    SumValuesRemove(LineTotals(items, products, o), p);
    assert LineTotals(rest, products, o) == LineTotals(items, products, o) - {p};
    SumValuesRemove(Quantities(items, o), p);
    assert Quantities(rest, o) == Quantities(items, o) - {p};
  }

  /** Storing quantity q for item (o, p) makes its line price * q, whatever was there before. */
  lemma CartUpdate(items: map<ItemKey, int>, products: map<ProductId, Product>, o: OrderId, p: ProductId, q: int)
    requires ItemsPriced(items, products) && p in products
    ensures ItemsPriced(items[(o, p) := q], products)
    ensures CartTotal(items[(o, p) := q], products, o)
         == LineTotal(products[p].price, q) + CartTotal(items - {(o, p)}, products, o)
    ensures CartItems(items[(o, p) := q], o) == q + CartItems(items - {(o, p)}, o)
  {
    var r := items[(o, p) := q];
    CartSplit(r, products, o, p);
    assert r - {(o, p)} == items - {(o, p)};
  }

  /** Taking one unit off item (o, p), deleting it when none would be left,
      lowers the cart total by one price and the item count by one. */
  lemma CartDecrement(items: map<ItemKey, int>, products: map<ProductId, Product>, o: OrderId, p: ProductId)
    requires ItemsPriced(items, products)
    requires (o, p) in items && items[(o, p)] > 0
    ensures var after := if items[(o, p)] > 1 then items[(o, p) := items[(o, p)] - 1] else items - {(o, p)};
      && ItemsPriced(after, products)
      && CartTotal(after, products, o) == CartTotal(items, products, o) - products[p].price
      && CartItems(after, o) == CartItems(items, o) - 1
  {
    var k := (o, p);
    var q := items[k];
    var price := products[p].price;
    CartSplit(items, products, o, p);
    var rest := CartTotal(items - {k}, products, o);
    assert CartTotal(items, products, o) == LineTotal(price, q) + rest;
    assert LineTotal(price, q) == LineTotal(price, q - 1) + price;
    if q > 1 {
      CartUpdate(items, products, o, p, q - 1);
    }
  }

  /** Items of other orders do not enter an order's totals. */
  lemma CartOfOtherOrder(items: map<ItemKey, int>, items': map<ItemKey, int>,
                         products: map<ProductId, Product>, o: OrderId)
    requires ItemsPriced(items, products) && ItemsPriced(items', products)
    requires forall p :: ((o, p) in items <==> (o, p) in items')
    requires forall p :: (o, p) in items ==> items[(o, p)] == items'[(o, p)]
    ensures CartTotal(items', products, o) == CartTotal(items, products, o)
    ensures CartItems(items', o) == CartItems(items, o)
  {
    assert ProductsOf(items', o) == ProductsOf(items, o);
    assert LineTotals(items', products, o) == LineTotals(items, products, o);
    assert Quantities(items', o) == Quantities(items, o);
  }

  // ---------------------------------------------------------------------
  // Integrity rules of the tables

  /** Unique constraint on Category.name. */
  ghost predicate UniqueCategoryNames(categories: map<CategoryId, string>) {
    forall a, b :: a in categories && b in categories && categories[a] == categories[b] ==> a == b
  }

  /** Unique constraint on Product.name. */
  ghost predicate UniqueProductNames(products: map<ProductId, Product>) {
    forall a, b :: a in products && b in products && products[a].name == products[b].name ==> a == b
  }

  /** Customer.user is a one-to-one field to an existing user, indexed by `customerOfUser`. */
  ghost predicate UsersLinked(users: map<UserId, User>, customers: map<CustomerId, Customer>,
                              customerOfUser: map<UserId, CustomerId>) {
    && (forall u :: u in customerOfUser ==> u in users)
    && (forall u :: u in customerOfUser ==>
          customerOfUser[u] in customers && customers[customerOfUser[u]].user == Some(u))
    && (forall c :: c in customers && customers[c].user.Some? ==>
          customers[c].user.value in customerOfUser && customerOfUser[customers[c].user.value] == c)
  }

  /** Creating the customer of a user that has none keeps the link
      one-to-one, and it is the only customer linked to that user. */
  lemma LinkNewCustomer(users: map<UserId, User>, customers: map<CustomerId, Customer>,
                        customerOfUser: map<UserId, CustomerId>, next: CustomerId, made: Customer)
    requires UsersLinked(users, customers, customerOfUser)
    requires forall c :: c in customers ==> c < next
    requires made.user.Some? && made.user.value in users && made.user.value !in customerOfUser
    ensures UsersLinked(users, customers[next := made], customerOfUser[made.user.value := next])
    ensures forall c :: c in customers ==> customers[c].user != made.user
  {
  }

  /** The customer of a user is the only customer linked to it. */
  lemma LinkedCustomerUnique(users: map<UserId, User>, customers: map<CustomerId, Customer>,
                             customerOfUser: map<UserId, CustomerId>, u: UserId)
    requires UsersLinked(users, customers, customerOfUser) && u in customerOfUser
    ensures customerOfUser[u] in customers
    ensures forall c :: c in customers && customers[c].user == Some(u) <==> c == customerOfUser[u]
  {
  }

  /** Saving item k of an existing order and product, then deleting it when
      its quantity is not positive, keeps the item rules. */
  lemma SaveKeepsItemsValid(items: map<ItemKey, int>, orders: map<OrderId, Order>,
                            products: map<ProductId, Product>, k: ItemKey, quantity: int)
    requires ItemsValid(items, orders, products) && k.0 in orders && k.1 in products
    ensures ItemsValid(if quantity <= 0 then items - {k} else items[k := quantity], orders, products)
  {
  }

  /** Orders belong to known customers, and a completed order carries a transaction id. */
  ghost predicate OrdersValid(orders: map<OrderId, Order>, customers: map<CustomerId, Customer>) {
    forall o :: o in orders ==>
      orders[o].customer in customers && (orders[o].complete ==> orders[o].transactionId.Some?)
  }

  /** Order `o` is the incomplete order (the cart) of customer `c`. */
  predicate IsCart(orders: map<OrderId, Order>, o: OrderId, c: CustomerId) {
    o in orders && orders[o].customer == c && !orders[o].complete
  }

  /** At most one incomplete order per customer. */
  ghost predicate AtMostOneCart(orders: map<OrderId, Order>) {
    forall o1, o2, c :: IsCart(orders, o1, c) && IsCart(orders, o2, c) ==> o1 == o2
  }

  /** Stored quantities are positive, and items refer to existing orders and products. */
  ghost predicate ItemsValid(items: map<ItemKey, int>, orders: map<OrderId, Order>,
                             products: map<ProductId, Product>) {
    forall k :: k in items ==> items[k] > 0 && k.0 in orders && k.1 in products
  }

  /** Addresses refer to existing customers and orders. */
  ghost predicate AddressesValid(addresses: seq<Address>, customers: map<CustomerId, Customer>,
                                 orders: map<OrderId, Order>) {
    forall i :: 0 <= i < |addresses| ==>
      addresses[i].customer in customers && addresses[i].order in orders
  }

  /** Items and addresses stay valid when orders are only added. */
  lemma OrdersGrow(items: map<ItemKey, int>, addresses: seq<Address>, customers: map<CustomerId, Customer>,
                   products: map<ProductId, Product>, orders: map<OrderId, Order>, orders': map<OrderId, Order>)
    requires orders.Keys <= orders'.Keys
    requires ItemsValid(items, orders, products) && AddressesValid(addresses, customers, orders)
    ensures ItemsValid(items, orders', products) && AddressesValid(addresses, customers, orders')
  {
  }

  /** Stamping a transaction id on an order, and possibly completing it,
      keeps the order rules: a completed order has its transaction id, and
      completing a cart can only remove a cart. */
  lemma StampKeepsOrdersValid(orders: map<OrderId, Order>, customers: map<CustomerId, Customer>,
                              items: map<ItemKey, int>, products: map<ProductId, Product>,
                              addresses: seq<Address>, o: OrderId, stamped: Order)
    requires o in orders && OrdersValid(orders, customers) && AtMostOneCart(orders)
    requires ItemsValid(items, orders, products) && AddressesValid(addresses, customers, orders)
    requires stamped.customer == orders[o].customer && stamped.transactionId.Some?
    requires !stamped.complete ==> !orders[o].complete
    ensures OrdersValid(orders[o := stamped], customers) && AtMostOneCart(orders[o := stamped])
    ensures ItemsValid(items, orders[o := stamped], products)
    ensures AddressesValid(addresses, customers, orders[o := stamped])
  {
    var orders' := orders[o := stamped];
    forall o1, o2, c | IsCart(orders', o1, c) && IsCart(orders', o2, c)
      ensures o1 == o2
    {
      assert IsCart(orders, o1, c) && IsCart(orders, o2, c);
    }
  }

  /** Recording an address of an existing customer and order keeps the address rules. */
  lemma RecordKeepsAddressesValid(addresses: seq<Address>, customers: map<CustomerId, Customer>,
                                  orders: map<OrderId, Order>, a: Address)
    requires AddressesValid(addresses, customers, orders)
    requires a.customer in customers && a.order in orders
    ensures AddressesValid(addresses + [a], customers, orders)
  {
  }
}
