/** The shop's database as one object whose tables the views update in place:
    the user post-save hook and the unique-name inserts of website/models.py,
    and the `updateItem` and `processOrder` views of website/views.py on the
    path of an authenticated user. Every operation runs atomically. */
module Shop {
  import opened Models
  import opened Views

  /** The shipping part of the checkout request. */
  datatype Shipping = Shipping(street: string, city: string, postalCode: string)

  /** The parsed checkout request; None stands for a field that is absent
      (shipping) or that does not convert to a number (total). */
  datatype CheckoutRequest = CheckoutRequest(shipping: Option<Shipping>, total: Option<Cents>)

  class Store {
    var users: map<UserId, User>
    var customers: map<CustomerId, Customer>
    /** The one-to-one index of Customer.user. */
    var customerOfUser: map<UserId, CustomerId>
    var categories: map<CategoryId, string>
    var products: map<ProductId, Product>
    var orders: map<OrderId, Order>
    var items: map<ItemKey, int>
    var addresses: seq<Address>
    /** The next id each auto-increment table hands out. */
    var nextCustomerId: nat
    var nextCategoryId: nat
    var nextProductId: nat
    var nextOrderId: nat

    /** The integrity rules every operation keeps. */
    ghost predicate Valid()
      reads this
    {
      && (forall c :: c in customers ==> c < nextCustomerId)
      && (forall c :: c in categories ==> c < nextCategoryId)
      && (forall p :: p in products ==> p < nextProductId)
      && (forall o :: o in orders ==> o < nextOrderId)
      && UsersLinked(users, customers, customerOfUser)
      && UniqueCategoryNames(categories)
      && UniqueProductNames(products)
      && OrdersValid(orders, customers)
      && AtMostOneCart(orders)
      && ItemsValid(items, orders, products)
      && AddressesValid(addresses, customers, orders)
    }

    /** An empty database. */
    constructor ()
      ensures Valid()
      ensures users == map[] && customers == map[] && customerOfUser == map[]
      ensures categories == map[] && products == map[]
      ensures orders == map[] && items == map[] && addresses == []
    {
      users, customers, customerOfUser := map[], map[], map[];
      categories, products := map[], map[];
      orders, items, addresses := map[], map[], [];
      nextCustomerId, nextCategoryId, nextProductId, nextOrderId := 0, 0, 0, 0;
    }

    /** Customer.objects.create for a user without a customer. */
    method CreateCustomer(made: Customer)
      requires Valid()
      requires made.user.Some? && made.user.value in users && made.user.value !in customerOfUser
      modifies this
      ensures Valid()
      ensures customers == old(customers)[old(nextCustomerId) := made]
      ensures customerOfUser == old(customerOfUser)[made.user.value := old(nextCustomerId)]
      ensures nextCustomerId == old(nextCustomerId) + 1
      ensures forall c :: c in customers && customers[c].user == made.user <==> c == old(nextCustomerId)
      ensures users == old(users) && categories == old(categories) && products == old(products)
      ensures orders == old(orders) && items == old(items) && addresses == old(addresses)
      ensures nextCategoryId == old(nextCategoryId) && nextProductId == old(nextProductId)
      ensures nextOrderId == old(nextOrderId)
    {
      LinkNewCustomer(users, customers, customerOfUser, nextCustomerId, made);
      customers := customers[nextCustomerId := made];
      customerOfUser := customerOfUser[made.user.value := nextCustomerId];
      nextCustomerId := nextCustomerId + 1;
      LinkedCustomerUnique(users, customers, customerOfUser, made.user.value);
    }

    /** Saving user u. When the save creates the user, the post-save hook
        creates its customer, named "first last", with the user's email, and
        that is the one customer linked to u; re-saving an existing user
        creates no customer and leaves the customer's fields as they were. */
    method SaveUser(u: UserId, info: User) returns (created: bool)
      requires Valid()
      modifies this
      ensures Valid()
      ensures created <==> u !in old(users)
      ensures users == old(users)[u := info]
      ensures created ==>
        && customers == old(customers)[old(nextCustomerId) :=
             Customer(Some(u), info.firstName + " " + info.lastName, info.email)]
        && customerOfUser == old(customerOfUser)[u := old(nextCustomerId)]
        && nextCustomerId == old(nextCustomerId) + 1
        && (forall c :: c in customers && customers[c].user == Some(u) <==> c == old(nextCustomerId))
      ensures !created ==>
        customers == old(customers) && customerOfUser == old(customerOfUser) &&
        nextCustomerId == old(nextCustomerId)
      ensures categories == old(categories) && products == old(products) && orders == old(orders)
      ensures items == old(items) && addresses == old(addresses)
      ensures nextCategoryId == old(nextCategoryId) && nextProductId == old(nextProductId)
      ensures nextOrderId == old(nextOrderId)
    {
      created := u !in users;
      users := users[u := info];
      if created {
        CreateCustomer(Customer(Some(u), info.firstName + " " + info.lastName, info.email));
      }
    }

    /** Inserting a category; a name already in use violates the unique constraint. */
    method CreateCategory(name: string) returns (r: Result<CategoryId>)
      requires Valid()
      modifies this
      ensures Valid()
      ensures r.Err? <==> exists c :: c in old(categories) && old(categories)[c] == name
      ensures r.Err? ==>
        r.error == DuplicateName && categories == old(categories) && nextCategoryId == old(nextCategoryId)
      ensures r.Ok? ==>
        && r.value !in old(categories) && categories == old(categories)[r.value := name]
        && nextCategoryId == old(nextCategoryId) + 1
      ensures users == old(users) && customers == old(customers) && customerOfUser == old(customerOfUser)
      ensures products == old(products) && orders == old(orders) && items == old(items)
      ensures addresses == old(addresses)
      ensures nextCustomerId == old(nextCustomerId) && nextProductId == old(nextProductId)
      ensures nextOrderId == old(nextOrderId)
    {
      if exists c :: c in categories && categories[c] == name {
        return Err(DuplicateName);
      }
      var id := nextCategoryId;
      categories := categories[id := name];
      nextCategoryId := nextCategoryId + 1;
      r := Ok(id);
    }

    /** Inserting a product; a name already in use violates the unique constraint. */
    method CreateProduct(name: string, price: Cents) returns (r: Result<ProductId>)
      requires Valid()
      modifies this
      ensures Valid()
      ensures r.Err? <==> exists p :: p in old(products) && old(products)[p].name == name
      ensures r.Err? ==>
        r.error == DuplicateName && products == old(products) && nextProductId == old(nextProductId)
      ensures r.Ok? ==>
        && r.value !in old(products) && products == old(products)[r.value := Product(name, price)]
        && nextProductId == old(nextProductId) + 1
      ensures users == old(users) && customers == old(customers) && customerOfUser == old(customerOfUser)
      ensures categories == old(categories) && orders == old(orders) && items == old(items)
      ensures addresses == old(addresses)
      ensures nextCustomerId == old(nextCustomerId) && nextCategoryId == old(nextCategoryId)
      ensures nextOrderId == old(nextOrderId)
    {
      if exists p :: p in products && products[p].name == name {
        return Err(DuplicateName);
      }
      var id := nextProductId;
      products := products[id := Product(name, price)];
      nextProductId := nextProductId + 1;
      r := Ok(id);
    }

    /** Order.objects.get_or_create(customer=c, complete=False). */
    method GetOrCreateCart(c: CustomerId, now: Timestamp) returns (o: OrderId)
      requires Valid() && c in customers
      modifies this
      ensures Valid()
      ensures o == CartId(old(orders), old(nextOrderId), c)
      ensures orders == OrdersWithCart(old(orders), old(nextOrderId), c, now)
      ensures IsCart(orders, o, c)
      ensures nextOrderId == if HasCart(old(orders), c) then old(nextOrderId) else old(nextOrderId) + 1
      ensures users == old(users) && customers == old(customers) && customerOfUser == old(customerOfUser)
      ensures categories == old(categories) && products == old(products) && items == old(items)
      ensures addresses == old(addresses)
      ensures nextCustomerId == old(nextCustomerId) && nextCategoryId == old(nextCategoryId)
      ensures nextProductId == old(nextProductId)
    {
      CartResolution(orders, customers, nextOrderId, c, now);
      OrdersGrow(items, addresses, customers, products, orders, OrdersWithCart(orders, nextOrderId, c, now));
      if existing :| existing in orders && IsCart(orders, existing, c) {
        o := existing;
      } else {
        o := nextOrderId;
        orders := orders[o := NewOrder(c, now)];
        nextOrderId := nextOrderId + 1;
      }
    }

    /** Address.objects.create: records an address of an existing customer and order. */
    method RecordAddress(a: Address)
      requires Valid() && a.customer in customers && a.order in orders
      modifies this
      ensures Valid()
      ensures addresses == old(addresses) + [a]
      ensures users == old(users) && customers == old(customers) && customerOfUser == old(customerOfUser)
      ensures categories == old(categories) && products == old(products) && orders == old(orders)
      ensures items == old(items)
      ensures nextCustomerId == old(nextCustomerId) && nextCategoryId == old(nextCategoryId)
      ensures nextProductId == old(nextProductId) && nextOrderId == old(nextOrderId)
    {
      RecordKeepsAddressesValid(addresses, customers, orders, a);
      addresses := addresses + [a];
    }

    /** order.save() of order o with a transaction id stamped on it; the
        order keeps its customer and is never made incomplete again. */
    method SaveOrder(o: OrderId, order: Order)
      requires Valid() && o in orders
      requires order.customer == orders[o].customer && order.transactionId.Some?
      requires orders[o].complete ==> order.complete
      modifies this
      ensures Valid()
      ensures orders == old(orders)[o := order]
      ensures users == old(users) && customers == old(customers) && customerOfUser == old(customerOfUser)
      ensures categories == old(categories) && products == old(products) && items == old(items)
      ensures addresses == old(addresses)
      ensures nextCustomerId == old(nextCustomerId) && nextCategoryId == old(nextCategoryId)
      ensures nextProductId == old(nextProductId) && nextOrderId == old(nextOrderId)
    {
      StampKeepsOrdersValid(orders, customers, items, products, addresses, o, order);
      orders := orders[o := order];
    }

    /** orderItem.save() followed by orderItem.delete() when the quantity is
        not positive: item k of an existing order and product ends up stored
        with the quantity, or absent. */
    method SaveItem(k: ItemKey, quantity: int)
      requires Valid() && k.0 in orders && k.1 in products
      modifies this
      ensures Valid()
      ensures items == if quantity <= 0 then old(items) - {k} else old(items)[k := quantity]
      ensures users == old(users) && customers == old(customers) && customerOfUser == old(customerOfUser)
      ensures categories == old(categories) && products == old(products) && orders == old(orders)
      ensures addresses == old(addresses)
      ensures nextCustomerId == old(nextCustomerId) && nextCategoryId == old(nextCategoryId)
      ensures nextProductId == old(nextProductId) && nextOrderId == old(nextOrderId)
    {
      ghost var before := items;
      SaveKeepsItemsValid(items, orders, products, k, quantity);
      items := items[k := quantity];
      if quantity <= 0 {
        items := items - {k};
        assert items == before - {k};
      }
    }

    /** The updateItem view: the acting user's customer, the product, the
        customer's cart (created when missing) and the cart's item for the
        product (created at quantity 0 when missing); the item gains one unit
        on 'add', loses one on 'remove', is saved, and is deleted when its
        quantity is not positive. An unknown product fails before anything is
        written. */
    method UpdateItem(user: UserId, productId: ProductId, action: string, now: Timestamp) returns (r: Outcome)
      requires Valid()
      modifies this
      ensures Valid()
      ensures users == old(users) && customers == old(customers) && customerOfUser == old(customerOfUser)
      ensures categories == old(categories) && products == old(products) && addresses == old(addresses)
      ensures nextCustomerId == old(nextCustomerId) && nextCategoryId == old(nextCategoryId)
      ensures nextProductId == old(nextProductId)
      ensures user !in old(customerOfUser) ==>
        r == Fail(NoCustomer) && orders == old(orders) && items == old(items) && nextOrderId == old(nextOrderId)
      ensures user in old(customerOfUser) && productId !in old(products) ==>
        r == Fail(ProductNotFound) && orders == old(orders) && items == old(items) && nextOrderId == old(nextOrderId)
      ensures user in old(customerOfUser) && productId in old(products) ==>
        var c := old(customerOfUser)[user];
        && r == Pass
        && orders == OrdersWithCart(old(orders), old(nextOrderId), c, now)
        && nextOrderId == (if HasCart(old(orders), c) then old(nextOrderId) else old(nextOrderId) + 1)
        && items == ApplyAction(old(items), (CartId(old(orders), old(nextOrderId), c), productId), ActionOf(action))
    {
      if user !in customerOfUser {
        return Fail(NoCustomer);
      }
      var c := customerOfUser[user];
      if productId !in products {
        return Fail(ProductNotFound);
      }
      var o := GetOrCreateCart(c, now);
      var k := (o, productId);
      var quantity := if k in items then items[k] else DefaultQuantity;
      if action == "add" {
        quantity := quantity + 1;
      } else if action == "remove" {
        quantity := quantity - 1;
      }
      assert quantity == NextQuantity(StoredQuantity(old(items), k), ActionOf(action));
      SaveItem(k, quantity);
      r := Pass;
    }

    /** The processOrder view on the path of an authenticated user: get or
        create the customer's cart, record the shipping address against it,
        stamp the transaction id, complete the order exactly when the
        submitted total equals the cart total, save it, and build the order
        summary from the order's items and its one address. Each failure
        leaves in place what was written before the failing step. */
    method ProcessOrder(user: UserId, request: CheckoutRequest, now: Timestamp) returns (r: Result<OrderSummary>)
      requires Valid()
      modifies this
      ensures Valid()
      ensures users == old(users) && customers == old(customers) && customerOfUser == old(customerOfUser)
      ensures categories == old(categories) && products == old(products) && items == old(items)
      ensures nextCustomerId == old(nextCustomerId) && nextCategoryId == old(nextCategoryId)
      ensures nextProductId == old(nextProductId)
      ensures user !in old(customerOfUser) ==>
        && r == Err(NoCustomer) && orders == old(orders) && addresses == old(addresses)
        && nextOrderId == old(nextOrderId)
      ensures user in old(customerOfUser) ==>
        var c := old(customerOfUser)[user];
        var o := CartId(old(orders), old(nextOrderId), c);
        var withCart := OrdersWithCart(old(orders), old(nextOrderId), c, now);
        && nextOrderId == (if HasCart(old(orders), c) then old(nextOrderId) else old(nextOrderId) + 1)
        && o in withCart
        && (request.shipping.None? ==>
              r == Err(MissingShipping) && orders == withCart && addresses == old(addresses))
        && (request.shipping.Some? ==>
              var s := request.shipping.value;
              addresses == old(addresses) + [Address(c, o, s.street, s.city, s.postalCode)])
        && (request.shipping.Some? && request.total.None? ==>
              r == Err(InvalidTotal) && orders == withCart)
        && (request.shipping.Some? && request.total.Some? ==>
              var s := request.shipping.value;
              var matches := request.total.value == CartTotal(items, products, o);
              && orders == withCart[o := withCart[o].(transactionId := Some(now), complete := matches)]
              // the transaction id is always stamped; completion happens exactly on a total match
              && orders[o].transactionId == Some(now)
              && (orders[o].complete <==> matches)
              // a second address for the order makes the final lookup fail, after the writes
              && (r.Err? <==> AddressesFor(old(addresses), o) != [])
              && (r.Err? ==> r.error == MultipleAddresses)
              && (r.Ok? ==> r.value == OrderSummary(o, customers[c].name, customers[c].email,
                                                    withCart[o].orderDate, s.street, s.city, s.postalCode,
                                                    SummaryLines(items, products, o))))
    {
      if user !in customerOfUser {
        return Err(NoCustomer);
      }
      var c := customerOfUser[user];
      var o := GetOrCreateCart(c, now);
      ghost var withCart := orders;
      if request.shipping.None? {
        return Err(MissingShipping);
      }
      var shipping := request.shipping.value;
      var recorded := Address(c, o, shipping.street, shipping.city, shipping.postalCode);
      ghost var previous := addresses;
      RecordAddress(recorded);
      if request.total.None? {
        return Err(InvalidTotal);
      }
      var total := request.total.value;
      var order := orders[o].(transactionId := Some(now));
      if total == CartTotal(items, products, o) {
        order := order.(complete := true);
      }
      SaveOrder(o, order);
      var lines := SummaryLines(items, products, o);
      LookupAfterRecording(previous, recorded);
      var address := GetAddress(addresses, o);
      if address.Err? {
        return Err(address.error);
      }
      var customer := customers[orders[o].customer];
      r := Ok(OrderSummary(o, customer.name, customer.email, orders[o].orderDate,
                           address.value.street, address.value.city, address.value.postalCode, lines));
    }
  }
}
