# Shopping cart and order lifecycle of the shop

This project models the cart and checkout logic of a small Django shop. All
of it runs on the database tables of the shop:

- users and their customers;
- categories and products, each with a unique name;
- orders, where an incomplete order is the customer's cart;
- order items, one per (order, product) pair, each with a quantity;
- shipping addresses.

The view `updateItem` adds or removes one unit of a product in the cart of
the signed-in customer. If the cart or the item does not exist, it creates it
first. An item whose quantity drops to zero or below is deleted.

The view `processOrder` runs the checkout. It gets or creates the cart and
records the shipping address against it. It then stamps a transaction id on
the order and marks the order complete only when the submitted total equals
the computed cart total. Last, it builds the order summary that goes out as a
message.

The model is in four modules:

- `Sums` (sums.dfy): a finite sum over a map keyed by ids, proved to be
  independent of the order in which the entries are taken, and the ids of a
  set listed in increasing order.
- `Models` (models.dfy): the entities as datatypes, and `get_total`,
  `get_cart_total` and `get_cart_items` as functions. It also holds the
  integrity rules of the tables and lemmas on how those rules and the totals
  change when a row changes. Each rule is a predicate:
  - Category and Product names are unique;
  - Customer.user is one-to-one;
  - each customer has at most one incomplete order;
  - stored quantities are positive;
  - every row refers to existing rows.
- `Views` (views.dfy): what the two views mean on values. That covers the
  new item table after `updateItem`, which order `get_or_create` picks, the
  summary lines, and the `Address.objects.get` lookup.
- `Shop` (store.dfy): the `Store` class. It holds the tables as maps (and
  the addresses as a sequence) and updates them in place. Its methods are:
  - the user save, with the post-save hook that creates the customer;
  - the category and product inserts;
  - `get_or_create` of the cart;
  - the row saves;
  - `UpdateItem` and `ProcessOrder`.

  Every method keeps `Valid()`, the conjunction of the integrity rules. Each
  method also states its whole new state in terms of the `Views` and
  `Models` functions.

Money is counted in integer cents, so "the submitted total equals the cart
total" is an exact comparison of integers. The transaction id and the order
date come from the clock. Here they are one opaque `now` parameter. A missing
field in the request, or a total that is not a number, is an `Option` that is
`None`.

## Model

| member | source | states |
|---|---|---|
| Models.NewOrder | website/models.py:57-59 | a new order has the field defaults: it is incomplete, has no transaction id, belongs to the customer it was created for, and is dated at its creation time |
| Models.LineTotal | website/models.py:83-85 | get_total is the product's price times the item's quantity, and it is non-negative when both are |
| Models.ProductsOf | website/models.py:63 | the products listed for an order are exactly those with an item in that order |
| Models.CartTotal | website/models.py:61-65 | get_cart_total of an order with no items is 0 |
| Models.CartItems | website/models.py:67-71 | get_cart_items of an order with no items is 0 |
| Models.CartSplit | website/models.py:61-71 | each item adds price times quantity (get_total) to the cart total and its quantity to the item count; the other items make up the rest |
| Models.CartUpdate | website/models.py:83-85 | after an item's quantity is set to q, its line total is price times q and the other items keep their share of the totals |
| Models.CartDecrement | website/models.py:61-71 | removing one unit of an item, deleting the item when none would be left, lowers the cart total by one price and the item count by one |
| Models.CartOfOtherOrder | website/models.py:63 | an order's totals depend only on that order's own items |
| Models.LinkNewCustomer | website/models.py:15 | creating the customer of a user that has none keeps Customer.user one-to-one, and no earlier customer is linked to that user |
| Models.LinkedCustomerUnique | website/models.py:15 | a user's customer exists and is the only customer linked to that user |
| Models.SaveKeepsItemsValid | website/views.py:111-114 | saving an item and then deleting it when its quantity is not positive keeps every stored quantity positive and every item attached to existing rows |
| Models.OrdersGrow | website/views.py:102 | adding orders leaves items and addresses attached to existing rows |
| Models.StampKeepsOrdersValid | website/views.py:139-143 | stamping the transaction id and possibly completing the order keeps the order rules, including at most one cart per customer |
| Models.RecordKeepsAddressesValid | website/views.py:130-136 | an address of an existing customer and order keeps the address rules |
| Views.ApplyAction | website/views.py:104-114 | only the one (order, product) item changes; 'add' gives exactly one unit more, starting from the default 0 (models.py:80); 'remove' gives one less and deletes the item when nothing is left; any other action keeps a positive quantity; no stored quantity becomes non-positive; 'remove' or an unknown action on an absent item changes nothing |
| Views.AddRaisesTotals | website/views.py:106-107 | adding one unit of product p to an order raises its cart total by p's price and its item count by 1 |
| Views.RemoveLowersTotals | website/views.py:108-114 | removing one unit of a product in the cart lowers the cart total by its price and the item count by 1, whether the item is kept or deleted |
| Views.OtherOrdersTotalsUnchanged | website/views.py:104-114 | updating an item leaves the totals of every other order unchanged |
| Views.CartOf | website/views.py:102 | the order picked is an incomplete order of the customer |
| Views.CartResolution | website/views.py:102 | get_or_create returns an incomplete order of the customer; it reuses the existing cart, adds no order when one exists, and otherwise adds exactly one order with the defaults complete=False and no transaction id (models.py:58-59); existing orders are untouched, and at most one cart per customer still holds |
| Views.SummaryLines | website/views.py:146-152 | the summary has one entry per item of the order |
| Views.SummaryListsEveryItem | website/views.py:146-152 | every item of the order appears in the summary as (product name, quantity) |
| Views.SummaryListsOnlyItems | website/views.py:146-152 | every summary entry is (product name, quantity) of an item of the order |
| Views.SummaryOneEntryPerItem | website/views.py:146-152 | with unique product names (models.py:46), each item of the order has exactly one summary entry with its product's name |
| Views.AddressesFor | website/views.py:154 | the rows selected are the recorded addresses of that order, each as many times as it was recorded (a repeated identical address counts twice), and no other rows |
| Views.GetAddress | website/views.py:154 | the lookup succeeds exactly when the order has one address, and that address is returned; no address and several addresses are distinct errors |
| Views.LookupAfterRecording | website/views.py:130-154 | after an address is recorded for an order, the lookup returns that address when it is the order's first one, and fails with MultipleAddresses otherwise |
| Views.RetryAfterMismatch | website/views.py:125-154 | after a checkout whose total did not match, the order is still the customer's cart and has an address, so the next checkout gets the same order back and its lookup finds more than one address |
| Shop.Store.constructor | website/models.py:11-85 | the new database is empty and satisfies every integrity rule |
| Shop.Store.CreateCustomer | website/models.py:24 | Customer.objects.create inserts the customer with the next id, links it to its user, keeps the rules, and it becomes the only customer of that user |
| Shop.Store.SaveUser | website/models.py:20-24 | a save that creates the user also creates exactly one linked customer named first name, space, last name, with the user's email; saving an existing user creates no customer; nothing else changes |
| Shop.Store.CreateCategory | website/models.py:36 | the insert fails with DuplicateName exactly when the name is already used, with nothing changed; otherwise the category gets the next id |
| Shop.Store.CreateProduct | website/models.py:46 | the insert fails with DuplicateName exactly when the name is already used, with nothing changed; otherwise the product gets the next id |
| Shop.Store.GetOrCreateCart | website/views.py:102 | returns the customer's cart as given by CartResolution, with the order table and the id counter updated to match, and nothing else changed |
| Shop.Store.RecordAddress | website/views.py:130-136 | appends exactly the one address, and nothing else changes |
| Shop.Store.SaveOrder | website/views.py:139-143 | replaces the one order, keeps the rules, and nothing else changes |
| Shop.Store.SaveItem | website/views.py:111-114 | the item is stored with its quantity or, when that quantity is not positive, removed; nothing else changes |
| Shop.Store.UpdateItem | website/views.py:92-116 | a user without a customer, or an unknown product, fails with the store unchanged; otherwise the cart is resolved as in get_or_create and the item table becomes ApplyAction of the action; users, customers, products and addresses are untouched |
| Shop.Store.ProcessOrder | website/views.py:119-176 | a user without a customer fails with nothing written; missing shipping fails after get_or_create; otherwise exactly one address is recorded with the customer, the order and the submitted street, city and postal code; a total that is not a number fails after that; otherwise the transaction id is always stamped, the order becomes complete exactly when the total equals CartTotal, and the order is saved; then the summary (order id, customer name and email, order date, the address, SummaryLines) is returned, unless the order already had an address, in which case the call fails with MultipleAddresses after those writes |

## Left out

- The guest checkout path (`guestOrder` and `cartData` from `.utils`, website/views.py:128): website/utils.py is not part of this model. Only the signed-in path is modelled.
- Sending the order message to the service bus (`asyncio.run(send_single_message(...))`, website/views.py:173, and website/sendmessage.py): this is network I/O. The model returns the summary record instead.
- Parsing the request JSON, `json.dumps` of the summary, and `JsonResponse`: requests come in already parsed as `CheckoutRequest`, and the summary is a record.
- `datetime.now().timestamp()` and `order_date.strftime(...)`: the clock is the `now` parameter, and the order date stays an opaque timestamp.
- `float(...)` on the cart total and on the submitted total (website/models.py:64, website/views.py:138): the source compares two floats exactly. The model compares integer cents exactly, so IEEE rounding is not modelled.
- Views.SummaryLines: lists the entries in increasing product id. The source lists them in the database's default order, which nothing specifies.
- Shop.Store.UpdateItem: the item write and the delete are one step, so the transient row with a quantity of zero or below is never visible in the model.
- Nullable fields are not modelled: a customer without a user, an order without a customer, an item without a product or order, and a null quantity. Every row refers to existing rows.
- A user may exist without a customer (for example, one created before the hook was connected). The integrity rules allow this, and the views then fail with NoCustomer.
- The `save_customer` post-save hook (website/models.py:27-30): it only re-saves the linked customer, which changes no field.
- The fields of User other than first name, last name and email. Product category, description and image. OrderItem row ids, because an item is identified by its (order, product) pair.
- The `print` calls of `updateItem`, the rendering and authentication views, forms, admin registrations and the seed_db command.
- Column bounds: the model uses unbounded integers and strings. It ignores the integer range of OrderItem.quantity (website/models.py:80), the `max_digits=10` limit on Product.price (website/models.py:48), and the `max_length` limits of the name and address fields (website/models.py:36,46,94-96).
- Concurrency between requests: every operation is atomic.
