/**
 * Supplier purchase orders: `add_product_to_order` (find-or-create of an
 * order item with quantity accumulation and price refresh) and
 * `get_order_items` (the item listing with its total quantity).
 *
 * An order's items are a sequence in the order the database lists them;
 * "at most one item per product" is an invariant the upsert keeps, not a
 * property of the representation.
 */
module Purchasing {
  import opened Wrappers
  import opened Seqs
  import opened Inventory

  type OrderId = int
  type SupplierId = int

  /** The only status in which an order's items may change. */
  const PendingStatus: string := "PENDING"

  /** The caller: the superuser flag and the role of the profile, None when there is no profile. */
  datatype User = User(isSuperuser: bool, profileRole: Option<string>)

  /** Superusers, and users whose profile role is "admin" or "bodega", may edit orders. */
  predicate MayEditOrders(u: User) {
    u.isSuperuser || (u.profileRole.Some? && (u.profileRole.value == "admin" || u.profileRole.value == "bodega"))
  }

  /** A SupplierOrderItem; the unit price is nullable because its source, the product's price, is. */
  datatype OrderItem = OrderItem(product: ProductId, quantity: int, unitPrice: Option<int>)

  datatype SupplierOrder = SupplierOrder(supplier: SupplierId, status: string, items: seq<OrderItem>)

  /** A ProductSupplier link; `cost` is the supplier's nullable price for the product. */
  datatype ProductSupplier = ProductSupplier(product: ProductId, supplier: SupplierId, cost: Option<int>)

  datatype Purchases = Purchases(catalog: Catalog, links: seq<ProductSupplier>, orders: map<OrderId, SupplierOrder>)

  datatype OrderError =
    | Forbidden
    | OrderNotFound
    | NotPending
    | NonPositiveQuantity
    | ProductUnavailable
    | NotSupplierProduct

  datatype Action = Created | Updated

  /** A successful upsert: the orders after it, the item touched, and the order's full item list. */
  datatype Added = Added(orders: map<OrderId, SupplierOrder>, item: OrderItem, action: Action, items: seq<OrderItem>, totalQuantity: int)

  /** `total_quantity`: the sum of the quantities of an order's items. */
  function TotalQuantity(items: seq<OrderItem>): int {
    if |items| == 0 then 0 else TotalQuantity(items[..|items| - 1]) + items[|items| - 1].quantity
  }

  /** Position of the first item for product `p` (`.filter(order, product).first()`). */
  function IndexOf(items: seq<OrderItem>, p: ProductId): Option<nat> {
    FirstWhere(items, (it: OrderItem) => it.product == p)
  }

  function ItemFor(items: seq<OrderItem>, p: ProductId): (r: Option<OrderItem>)
    ensures r.Some? <==> exists i :: 0 <= i < |items| && items[i].product == p
    ensures r.Some? ==> r.value.product == p
    ensures r.Some? ==> (exists i :: 0 <= i < |items| && items[i] == r.value &&
                          (forall j :: 0 <= j < i ==> items[j].product != p))
  {
    match IndexOf(items, p)
    case Some(i) => Some(items[i])
    case None => None
  }

  /** The quantity already ordered for `p`, zero when the order has no item for it. */
  function PreviousQuantity(items: seq<OrderItem>, p: ProductId): int {
    match ItemFor(items, p)
    case Some(it) => it.quantity
    case None => 0
  }

  predicate UniqueProducts(items: seq<OrderItem>) {
    forall i, j :: 0 <= i < j < |items| ==> items[i].product != items[j].product
  }

  /** The first link between a product and a supplier. */
  function SupplierLink(links: seq<ProductSupplier>, product: ProductId, supplier: SupplierId): (r: Option<ProductSupplier>)
    ensures r.Some? ==> r.value.product == product && r.value.supplier == supplier
    ensures r.Some? ==> (exists i :: 0 <= i < |links| && links[i] == r.value &&
                          (forall j :: 0 <= j < i ==> !(links[j].product == product && links[j].supplier == supplier)))
    ensures r.None? ==> forall j :: 0 <= j < |links| ==> !(links[j].product == product && links[j].supplier == supplier)
  {
    match FirstWhere(links, (l: ProductSupplier) => l.product == product && l.supplier == supplier)
    case Some(i) => Some(links[i])
    case None => None
  }

  /** The supplier's cost when it is set and non-zero, else the product's sale price. */
  function UnitPrice(link: ProductSupplier, product: Product): (r: Option<int>)
    ensures link.cost.Some? && link.cost.value != 0 ==> r == link.cost
    ensures link.cost.None? || link.cost == Some(0) ==> r == product.salePrice
  {
    if link.cost.Some? && link.cost.value != 0 then link.cost else product.salePrice
  }

  lemma {:induction false} TotalQuantityUpdate(items: seq<OrderItem>, i: nat, x: OrderItem)
    requires i < |items|
    ensures TotalQuantity(items[i := x]) == TotalQuantity(items) - items[i].quantity + x.quantity
    decreases |items|
  {
    var n := |items| - 1;
    var items' := items[i := x];
    assert items'[..n] == if i == n then items[..n] else items[..n][i := x];
    if i < n {
      TotalQuantityUpdate(items[..n], i, x);
    }
  }

  lemma TotalQuantityAppend(items: seq<OrderItem>, x: OrderItem)
    ensures TotalQuantity(items + [x]) == TotalQuantity(items) + x.quantity
  {
    assert (items + [x])[..|items|] == items;
  }

  lemma IndexOfAppend(items: seq<OrderItem>, x: OrderItem, p: ProductId)
    ensures IndexOf(items + [x], p) ==
      if IndexOf(items, p).Some? then IndexOf(items, p)
      else if x.product == p then Some(|items|)
      else None
  {
    FirstWhereAppend(items, x, (it: OrderItem) => it.product == p);
  }

  lemma IndexOfSameProducts(a: seq<OrderItem>, b: seq<OrderItem>, p: ProductId)
    requires |a| == |b|
    requires forall j :: 0 <= j < |a| ==> a[j].product == b[j].product
    ensures IndexOf(a, p) == IndexOf(b, p)
  {
  }

  /**
   * The item-level upsert: add `quantity` to the first item for `p` and
   * overwrite its price, or append a new item when there is none.
   */
  function UpsertItem(items: seq<OrderItem>, p: ProductId, quantity: int, price: Option<int>): (r: seq<OrderItem>)
    ensures ItemFor(r, p) == Some(OrderItem(p, PreviousQuantity(items, p) + quantity, price))
    ensures forall q :: q != p ==> ItemFor(r, q) == ItemFor(items, q)
    ensures UniqueProducts(items) ==> UniqueProducts(r)
    ensures |r| == |items| + (if ItemFor(items, p).Some? then 0 else 1)
    ensures TotalQuantity(r) == TotalQuantity(items) + quantity
    ensures IndexOf(items, p).Some? ==> IndexOf(r, p) == IndexOf(items, p)
    ensures forall j :: 0 <= j < |items| && IndexOf(items, p) != Some(j) ==> r[j] == items[j]
  {
    match IndexOf(items, p)
    case Some(i) =>
      var r := items[i := OrderItem(p, items[i].quantity + quantity, price)];
      TotalQuantityUpdate(items, i, OrderItem(p, items[i].quantity + quantity, price));
      assert forall q :: IndexOf(r, q) == IndexOf(items, q) by {
        forall q ensures IndexOf(r, q) == IndexOf(items, q) {
          IndexOfSameProducts(r, items, q);
        }
      }
      r
    case None =>
      var x := OrderItem(p, quantity, price);
      var r := items + [x];
      TotalQuantityAppend(items, x);
      assert forall q :: IndexOf(r, q) == if IndexOf(items, q).Some? then IndexOf(items, q)
                                          else if x.product == q then Some(|items|) else None by {
        forall q ensures IndexOf(r, q) == if IndexOf(items, q).Some? then IndexOf(items, q)
                                          else if x.product == q then Some(|items|) else None {
          IndexOfAppend(items, x, q);
        }
      }
      r
  }

  /** All guards of the upsert pass, in the order the endpoint tests them. */
  predicate Admissible(db: Purchases, user: User, orderId: OrderId, productId: ProductId, quantity: int) {
    && MayEditOrders(user)
    && orderId in db.orders
    && db.orders[orderId].status == PendingStatus
    && quantity > 0
    && productId in db.catalog && db.catalog[productId].active
    && SupplierLink(db.links, productId, db.orders[orderId].supplier).Some?
  }

  /** `add_product_to_order`: guard, then find-or-create the order's item for the product. */
  function AddProductToOrder(db: Purchases, user: User, orderId: OrderId, productId: ProductId, quantity: int): (r: Result<Added, OrderError>)
    ensures !MayEditOrders(user) ==> r == Failure(Forbidden)
    ensures MayEditOrders(user) && orderId !in db.orders ==> r == Failure(OrderNotFound)
    ensures MayEditOrders(user) && orderId in db.orders && db.orders[orderId].status != PendingStatus ==>
      r == Failure(NotPending)
    ensures MayEditOrders(user) && orderId in db.orders && db.orders[orderId].status == PendingStatus && quantity <= 0 ==>
      r == Failure(NonPositiveQuantity)
    ensures (MayEditOrders(user) && orderId in db.orders && db.orders[orderId].status == PendingStatus && quantity > 0 &&
             (productId !in db.catalog || !db.catalog[productId].active)) ==>
      r == Failure(ProductUnavailable)
    ensures (MayEditOrders(user) && orderId in db.orders && db.orders[orderId].status == PendingStatus && quantity > 0 &&
             productId in db.catalog && db.catalog[productId].active &&
             SupplierLink(db.links, productId, db.orders[orderId].supplier).None?) ==>
      r == Failure(NotSupplierProduct)
    ensures r.Success? <==> Admissible(db, user, orderId, productId, quantity)
    ensures r.Success? ==> r.value.orders.Keys == db.orders.Keys
    ensures r.Success? ==>
      var order := db.orders[orderId];
      var order' := r.value.orders[orderId];
      var price := UnitPrice(SupplierLink(db.links, productId, order.supplier).value, db.catalog[productId]);
      && (forall o :: o in db.orders && o != orderId ==> r.value.orders[o] == db.orders[o])
      && order'.supplier == order.supplier && order'.status == order.status
      && r.value.item == OrderItem(productId, PreviousQuantity(order.items, productId) + quantity, price)
      && order'.items == UpsertItem(order.items, productId, quantity, price)
      && ItemFor(order'.items, productId) == Some(r.value.item)
      && (forall p :: p != productId ==> ItemFor(order'.items, p) == ItemFor(order.items, p))
      && (UniqueProducts(order.items) ==> UniqueProducts(order'.items))
      && r.value.action == (if ItemFor(order.items, productId).Some? then Updated else Created)
      && r.value.items == order'.items
      && r.value.totalQuantity == TotalQuantity(order.items) + quantity
  {
    if !MayEditOrders(user) then Failure(Forbidden)
    else if orderId !in db.orders then Failure(OrderNotFound)
    else
      var order := db.orders[orderId];
      if order.status != PendingStatus then Failure(NotPending)
      else if quantity <= 0 then Failure(NonPositiveQuantity)
      else if productId !in db.catalog || !db.catalog[productId].active then Failure(ProductUnavailable)
      else match SupplierLink(db.links, productId, order.supplier)
        case None => Failure(NotSupplierProduct)
        case Some(link) =>
          var price := UnitPrice(link, db.catalog[productId]);
          var items := UpsertItem(order.items, productId, quantity, price);
          var action := if ItemFor(order.items, productId).Some? then Updated else Created;
          var item := ItemFor(items, productId).value;
          Success(Added(db.orders[orderId := order.(items := items)], item, action, items, TotalQuantity(items)))
  }

  /** `get_order_items`: the order's items and their total quantity, summed as the endpoint's loop does. */
  method OrderItems(orders: map<OrderId, SupplierOrder>, orderId: OrderId) returns (r: Result<(seq<OrderItem>, int), OrderError>)
    ensures orderId !in orders ==> r == Failure(OrderNotFound)
    ensures orderId in orders ==> r == Success((orders[orderId].items, TotalQuantity(orders[orderId].items)))
  {
    if orderId !in orders {
      return Failure(OrderNotFound);
    }
    var items := orders[orderId].items;
    var total := 0;
    var i := 0;
    while i < |items|
      invariant 0 <= i <= |items|
      invariant total == TotalQuantity(items[..i])
    {
      assert items[..i + 1][..i] == items[..i];
      total := total + items[i].quantity;
      i := i + 1;
    }
    assert items[..|items|] == items;
    return Success((items, total));
  }

  /**
   * Adding the same product twice to a pending order merges into one item:
   * the second call also succeeds, and the item holds the sum of both
   * quantities without a second row.
   */
  lemma AddTwiceMerges(db: Purchases, user: User, orderId: OrderId, productId: ProductId, q1: int, q2: int)
    requires AddProductToOrder(db, user, orderId, productId, q1).Success?
    requires q2 > 0
    ensures var first := AddProductToOrder(db, user, orderId, productId, q1).value;
            var second := AddProductToOrder(db.(orders := first.orders), user, orderId, productId, q2);
            && second.Success?
            && second.value.item.quantity == PreviousQuantity(db.orders[orderId].items, productId) + q1 + q2
            && |second.value.items| == |db.orders[orderId].items| + (if ItemFor(db.orders[orderId].items, productId).Some? then 0 else 1)
  {
  }
}
