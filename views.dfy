/** The value-level meaning of the cart and checkout views (website/views.py):
    what `updateItem` does to the item table, which order a customer's cart
    resolves to, the order-summary lines and the address lookup of
    `processOrder`. The Store class in store.dfy performs these steps on its
    tables and is specified by these functions. */
module Views {
  import opened Sums
  import opened Models

  // ---------------------------------------------------------------------
  // updateItem: the item table

  /** The quantity of item `k` after get_or_create: the stored one, or the
      field default when the row is created. */
  function StoredQuantity(items: map<ItemKey, int>, k: ItemKey): int {
    if k in items then items[k] else DefaultQuantity
  }

  /** The action field of the request: "add", "remove", or anything else. */
  datatype Action = Add | Remove | Other

  function ActionOf(name: string): Action {
    if name == "add" then Add
    else if name == "remove" then Remove
    else Other
  }

  /** 'add' adds one unit, 'remove' takes one away, any other action keeps the quantity. */
  function NextQuantity(q: int, action: Action): int {
    match action
    case Add => q + 1
    case Remove => q - 1
    case Other => q
  }

  /** The item table after `updateItem` on item `k`: the row is saved with
      its new quantity and then deleted when that quantity is not positive. */
  function ApplyAction(items: map<ItemKey, int>, k: ItemKey, action: Action): (r: map<ItemKey, int>)
    // only item k can change
    ensures forall k' :: k' != k ==> (k' in r <==> k' in items)
    ensures forall k' :: k' != k && k' in r ==> r[k'] == items[k']
    // no item is ever stored with a quantity of zero or less
    ensures (forall k' :: k' in items ==> items[k'] > 0) ==> forall k' :: k' in r ==> r[k'] > 0
    // 'add' raises the quantity by exactly one, from the default 0 for a new item
    ensures action == Add && StoredQuantity(items, k) >= 0 ==>
      k in r && r[k] == StoredQuantity(items, k) + 1
    // 'remove' lowers it by one and drops the item once nothing is left
    ensures action == Remove ==>
      (k in r <==> StoredQuantity(items, k) > 1) &&
      (k in r ==> r[k] == StoredQuantity(items, k) - 1)
    // any other action leaves a positive item as it is and drops a non-positive one
    ensures action == Other ==>
      (k in r <==> k in items && items[k] > 0) && (k in r ==> r[k] == items[k])
    // 'remove' or an unknown action on an item not in the cart is a net no-op
    ensures k !in items && action != Add ==> r == items
  {
    var q := NextQuantity(StoredQuantity(items, k), action);
    if q <= 0 then items - {k} else items[k := q]
  }

  /** One more unit adds one price to the line total. */
  lemma LineTotalStep(price: Cents, q: int)
    ensures LineTotal(price, q + 1) == LineTotal(price, q) + price
  {
    assert price * (q + 1) == price * q + price;
  }

  /** Adding one unit of product p raises the cart total by p's price and the
      item count by one. */
  lemma AddRaisesTotals(items: map<ItemKey, int>, products: map<ProductId, Product>, o: OrderId, p: ProductId)
    requires ItemsPriced(items, products) && p in products
    requires StoredQuantity(items, (o, p)) >= 0
    ensures ItemsPriced(ApplyAction(items, (o, p), Add), products)
    ensures CartTotal(ApplyAction(items, (o, p), Add), products, o) == CartTotal(items, products, o) + products[p].price
    ensures CartItems(ApplyAction(items, (o, p), Add), o) == CartItems(items, o) + 1
  {
    var k := (o, p);
    var q := StoredQuantity(items, k);
    var price := products[p].price;
    var added := ApplyAction(items, k, Add);
    assert added == items[k := q + 1];
    CartUpdate(items, products, o, p, q + 1);
    var rest := CartTotal(items - {k}, products, o);
    assert CartTotal(added, products, o) == LineTotal(price, q + 1) + rest;
    LineTotalStep(price, q);
    if k in items {
      CartSplit(items, products, o, p);
      assert CartTotal(items, products, o) == LineTotal(price, q) + rest;
    } else {
      assert items - {k} == items;
      assert LineTotal(price, q) == 0;
    }
  }

  /** Removing one unit of a product in the cart lowers the cart total by its
      price and the item count by one, whether the item stays or is deleted. */
  lemma RemoveLowersTotals(items: map<ItemKey, int>, products: map<ProductId, Product>, o: OrderId, p: ProductId)
    requires ItemsPriced(items, products)
    requires (o, p) in items && items[(o, p)] > 0
    ensures ItemsPriced(ApplyAction(items, (o, p), Remove), products)
    ensures CartTotal(ApplyAction(items, (o, p), Remove), products, o) == CartTotal(items, products, o) - products[p].price
    ensures CartItems(ApplyAction(items, (o, p), Remove), o) == CartItems(items, o) - 1
  {
    var k := (o, p);
    assert ApplyAction(items, k, Remove)
        == if items[k] > 1 then items[k := items[k] - 1] else items - {k};
    CartDecrement(items, products, o, p);
  }

  /** `updateItem` on order o leaves the totals of every other order unchanged. */
  lemma OtherOrdersTotalsUnchanged(items: map<ItemKey, int>, products: map<ProductId, Product>,
                                   k: ItemKey, action: Action, o': OrderId)
    requires ItemsPriced(items, products) && k.1 in products
    requires o' != k.0
    ensures ItemsPriced(ApplyAction(items, k, action), products)
    ensures CartTotal(ApplyAction(items, k, action), products, o') == CartTotal(items, products, o')
    ensures CartItems(ApplyAction(items, k, action), o') == CartItems(items, o')
  {
    CartOfOtherOrder(items, ApplyAction(items, k, action), products, o');
  }

  // ---------------------------------------------------------------------
  // Order.objects.get_or_create(customer=customer, complete=False)

  /** Customer `c` has an incomplete order. */
  ghost predicate HasCart(orders: map<OrderId, Order>, c: CustomerId) {
    exists o :: IsCart(orders, o, c)
  }

  /** The incomplete order of `c` (unique when AtMostOneCart holds). */
  ghost function CartOf(orders: map<OrderId, Order>, c: CustomerId): (o: OrderId)
    requires HasCart(orders, c)
    ensures IsCart(orders, o, c)
  {
    var o :| IsCart(orders, o, c); o
  }

  /** The order get_or_create returns: the existing cart, or a new order with the next id. */
  ghost function CartId(orders: map<OrderId, Order>, next: OrderId, c: CustomerId): OrderId {
    if HasCart(orders, c) then CartOf(orders, c) else next
  }

  /** The order table after get_or_create. */
  ghost function OrdersWithCart(orders: map<OrderId, Order>, next: OrderId, c: CustomerId, now: Timestamp): map<OrderId, Order> {
    if HasCart(orders, c) then orders else orders[next := NewOrder(c, now)]
  }

  /** get_or_create yields an incomplete order of c, reuses the existing one
      without creating an order, otherwise creates exactly one, leaves every
      existing order as it was, and keeps at most one cart per customer. */
  lemma CartResolution(orders: map<OrderId, Order>, customers: map<CustomerId, Customer>,
                       next: OrderId, c: CustomerId, now: Timestamp)
    requires AtMostOneCart(orders) && OrdersValid(orders, customers) && c in customers
    requires forall o :: o in orders ==> o < next
    ensures IsCart(OrdersWithCart(orders, next, c, now), CartId(orders, next, c), c)
    ensures OrdersValid(OrdersWithCart(orders, next, c, now), customers)
    ensures AtMostOneCart(OrdersWithCart(orders, next, c, now))
    ensures forall o :: IsCart(orders, o, c) ==> CartId(orders, next, c) == o
    ensures HasCart(orders, c) ==> OrdersWithCart(orders, next, c, now) == orders
    ensures !HasCart(orders, c) ==>
      OrdersWithCart(orders, next, c, now).Keys == orders.Keys + {next} && next !in orders
    ensures forall o :: o in orders ==>
      o in OrdersWithCart(orders, next, c, now) && OrdersWithCart(orders, next, c, now)[o] == orders[o]
  {
    var orders' := OrdersWithCart(orders, next, c, now);
    if !HasCart(orders, c) {
      assert forall o :: !IsCart(orders, o, c);
      assert forall o, c' :: o != next && IsCart(orders', o, c') ==> IsCart(orders, o, c');
    }
  }

  // ---------------------------------------------------------------------
  // The order summary of processOrder

  /** One entry of `order_items`. */
  datatype SummaryLine = SummaryLine(productName: string, quantity: int)

  /** The message content built at the end of checkout. */
  datatype OrderSummary = OrderSummary(
    orderId: OrderId,
    customerName: string,
    customerEmail: string,
    orderDate: Timestamp,
    street: string,
    city: string,
    postalCode: string,
    orderItems: seq<SummaryLine>)

  /** The summary entry of item (o, p). */
  function Entry(items: map<ItemKey, int>, products: map<ProductId, Product>, o: OrderId, p: ProductId): SummaryLine
    requires (o, p) in items && p in products
  {
    SummaryLine(products[p].name, items[(o, p)])
  }

  /** `order_items`: the entries of the items of order o, listed by increasing product id. */
  function SummaryLines(items: map<ItemKey, int>, products: map<ProductId, Product>, o: OrderId): (r: seq<SummaryLine>)
    requires ItemsPriced(items, products)
    ensures |r| == |ProductsOf(items, o)|
  {
    var ids := SortedIds(ProductsOf(items, o));
    forall i | 0 <= i < |ids|
      ensures (o, ids[i]) in items && ids[i] in products
    {
      assert ids[i] in ids;
    }
    seq(|ids|, i requires 0 <= i < |ids| => Entry(items, products, o, ids[i]))
  }

  /** The summary lists an entry for every item of the order. */
  lemma SummaryListsEveryItem(items: map<ItemKey, int>, products: map<ProductId, Product>, o: OrderId, p: ProductId)
    requires ItemsPriced(items, products)
    requires (o, p) in items
    ensures var r := SummaryLines(items, products, o);
      exists i :: 0 <= i < |r| && r[i] == SummaryLine(products[p].name, items[(o, p)])
  {
    var ids := SortedIds(ProductsOf(items, o));
    assert p in ids;
    var i :| 0 <= i < |ids| && ids[i] == p;
    assert SummaryLines(items, products, o)[i] == Entry(items, products, o, p);
  }

  /** Every entry of the summary is the entry of an item of the order. */
  lemma SummaryListsOnlyItems(items: map<ItemKey, int>, products: map<ProductId, Product>, o: OrderId, i: int)
    requires ItemsPriced(items, products)
    requires 0 <= i < |SummaryLines(items, products, o)|
    ensures var r := SummaryLines(items, products, o);
      exists p :: (o, p) in items && r[i] == SummaryLine(products[p].name, items[(o, p)])
  {
    var ids := SortedIds(ProductsOf(items, o));
    assert ids[i] in ids;
    assert SummaryLines(items, products, o)[i] == Entry(items, products, o, ids[i]);
  }

  /** With unique product names, every item of the order has exactly one
      summary entry naming its product. */
  lemma SummaryOneEntryPerItem(items: map<ItemKey, int>, products: map<ProductId, Product>, o: OrderId, p: ProductId)
    requires ItemsPriced(items, products) && UniqueProductNames(products)
    requires (o, p) in items
    ensures var r := SummaryLines(items, products, o);
      exists i :: 0 <= i < |r| && r[i] == SummaryLine(products[p].name, items[(o, p)]) &&
        forall j :: 0 <= j < |r| && r[j].productName == products[p].name ==> j == i
  {
    var ids := SortedIds(ProductsOf(items, o));
    var r := SummaryLines(items, products, o);
    assert p in ids;
    var i :| 0 <= i < |ids| && ids[i] == p;
    assert r[i] == Entry(items, products, o, p);
    forall j | 0 <= j < |r| && r[j].productName == products[p].name
      ensures j == i
    {
      assert ids[j] in ids;
      assert r[j] == Entry(items, products, o, ids[j]);
      assert ids[j] == p;
    }
  }

  // ---------------------------------------------------------------------
  // Address.objects.get(order=order)

  /** The addresses recorded against order o, in creation order: every row of
      o as many times as it was recorded, and no other row. */
  function AddressesFor(addresses: seq<Address>, o: OrderId): (r: seq<Address>)
    ensures forall a :: a in r <==> a in addresses && a.order == o
    ensures forall a :: multiset(r)[a] == if a.order == o then multiset(addresses)[a] else 0
    ensures |r| <= |addresses|
  {
    if addresses == [] then []
    else
      var last := addresses[|addresses| - 1];
      var init := addresses[..|addresses| - 1];
      assert addresses == init + [last];
      AddressesFor(init, o) + (if last.order == o then [last] else [])
  }

  /** Address.objects.get(order=o): the one address of o; no row and more
      than one row are both errors. */
  function GetAddress(addresses: seq<Address>, o: OrderId): (r: Result<Address>)
    ensures r.Ok? <==> |AddressesFor(addresses, o)| == 1
    ensures r.Ok? ==> r.value in addresses && r.value.order == o
    ensures r.Err? && AddressesFor(addresses, o) == [] ==> r.error == AddressNotFound
    ensures r.Err? && AddressesFor(addresses, o) != [] ==> r.error == MultipleAddresses
  {
    var found := AddressesFor(addresses, o);
    if |found| == 1 then
      assert found[0] in found;
      Ok(found[0])
    else if found == [] then Err(AddressNotFound)
    else Err(MultipleAddresses)
  }

  /** Looking up the address of an order right after recording address a for
      it finds a exactly when the order had no address before; a second
      checkout of the same order fails with MultipleAddresses. */
  lemma {:induction false} LookupAfterRecording(addresses: seq<Address>, a: Address)
    ensures GetAddress(addresses + [a], a.order)
         == if AddressesFor(addresses, a.order) == [] then Ok(a) else Err(MultipleAddresses)
  {
    var s := addresses + [a];
    assert s[..|s| - 1] == addresses;
    assert AddressesFor(s, a.order) == AddressesFor(addresses, a.order) + [a];
  }

  /** A checkout whose total did not match leaves the order a cart of its
      customer, with an address: the next checkout of that customer gets the
      same order back and its address lookup finds more than one row. */
  lemma RetryAfterMismatch(orders: map<OrderId, Order>, customers: map<CustomerId, Customer>,
                           next: OrderId, c: CustomerId, now: Timestamp,
                           addresses: seq<Address>, shipped: Address, next': OrderId)
    requires AtMostOneCart(orders) && OrdersValid(orders, customers) && c in customers
    requires forall o :: o in orders ==> o < next
    requires shipped.customer == c && shipped.order == CartId(orders, next, c)
    ensures var o := CartId(orders, next, c);
      var withCart := OrdersWithCart(orders, next, c, now);
      var stamped := withCart[o := withCart[o].(transactionId := Some(now), complete := false)];
      && HasCart(stamped, c)
      && CartId(stamped, next', c) == o
      && AddressesFor(addresses + [shipped], o) != []
  {
    CartResolution(orders, customers, next, c, now);
    var o := CartId(orders, next, c);
    var withCart := OrdersWithCart(orders, next, c, now);
    var stamped := withCart[o := withCart[o].(transactionId := Some(now), complete := false)];
    assert IsCart(stamped, o, c);
    forall o' | IsCart(stamped, o', c)
      ensures o' == o
    {
      if o' != o {
        assert IsCart(withCart, o', c);
      }
    }
    assert shipped in AddressesFor(addresses + [shipped], o);
  }
}
