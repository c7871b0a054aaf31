/**
 * `process_sale`: a two-phase checkout over the stock ledger.
 *
 * Phase 1 checks every cart line on its own against the sales zone's stock
 * and collects one error per failing line. Phase 2 runs only when there is
 * no error: it records one sale with a price snapshot per line, decrements
 * the ledger line by line and accumulates the total. Phase 2 runs inside a
 * transaction, so the whole checkout is a pure function: a failure returns
 * no new state at all.
 */
module PointOfSale {
  import opened Wrappers
  import opened Inventory
  import opened SalesZones

  type ClientId = int
  type UserId = int

  /** One cart entry `{id, quantity}`. The quantity is taken as given, sign included. */
  datatype CartLine = CartLine(id: ProductId, quantity: int)

  /** A SaleItem row; `priceAtSale` is the product's price when the sale was recorded. */
  datatype SaleItem = SaleItem(product: ProductId, quantity: int, priceAtSale: int)

  datatype Sale = Sale(client: Option<ClientId>, user: UserId, items: seq<SaleItem>, total: int)

  /** The part of the database a checkout reads and writes. */
  datatype Shop = Shop(catalog: Catalog, zones: seq<Zone>, ledger: Ledger, sales: seq<Sale>)

  /** Why one cart line was refused. */
  datatype LineError =
    | ProductNotFound(id: ProductId)
    | NoStockRow(id: ProductId)
    | Insufficient(id: ProductId, available: int, requested: int)

  datatype CheckoutError =
    | EmptyCart
    | NoSalesZone
    | Rejected(errors: seq<LineError>)

  /** Phase-1 check of one line: active product, a ledger row in the sales zone, enough stock in that row. */
  function CheckLine(catalog: Catalog, ledger: Ledger, zone: ZoneId, line: CartLine): Option<LineError> {
    if line.id !in catalog || !catalog[line.id].active then Some(ProductNotFound(line.id))
    else if (line.id, zone) !in ledger then Some(NoStockRow(line.id))
    else if ledger[(line.id, zone)] < line.quantity then
      Some(Insufficient(line.id, ledger[(line.id, zone)], line.quantity))
    else None
  }

  predicate LinePasses(catalog: Catalog, ledger: Ledger, zone: ZoneId, line: CartLine) {
    CheckLine(catalog, ledger, zone, line).None?
  }

  /** Phase 1: the errors of all failing lines, in cart order. */
  function Validate(catalog: Catalog, ledger: Ledger, zone: ZoneId, cart: seq<CartLine>): (errors: seq<LineError>)
    ensures |errors| <= |cart|
    ensures errors == [] <==> forall i :: 0 <= i < |cart| ==> LinePasses(catalog, ledger, zone, cart[i])
    ensures forall e :: e in errors ==>
      exists i :: 0 <= i < |cart| && CheckLine(catalog, ledger, zone, cart[i]) == Some(e)
  {
    if |cart| == 0 then []
    else
      var head := match CheckLine(catalog, ledger, zone, cart[0]) case None => [] case Some(e) => [e];
      var rest := Validate(catalog, ledger, zone, cart[1..]);
      assert forall e :: e in rest ==>
        exists i :: 0 <= i < |cart| && CheckLine(catalog, ledger, zone, cart[i]) == Some(e) by {
        forall e | e in rest
          ensures exists i :: 0 <= i < |cart| && CheckLine(catalog, ledger, zone, cart[i]) == Some(e)
        {
          var i :| 0 <= i < |cart[1..]| && CheckLine(catalog, ledger, zone, cart[1..][i]) == Some(e);
          assert cart[i + 1] == cart[1..][i];
        }
      }
      head + rest
  }

  /** Validation treats lines independently: the errors of a cart are the errors of its parts, in order. */
  lemma {:induction false} ValidateConcat(catalog: Catalog, ledger: Ledger, zone: ZoneId, a: seq<CartLine>, b: seq<CartLine>)
    ensures Validate(catalog, ledger, zone, a + b) == Validate(catalog, ledger, zone, a) + Validate(catalog, ledger, zone, b)
  {
    if |a| == 0 {
      assert a + b == b;
    } else {
      var head := match CheckLine(catalog, ledger, zone, a[0]) case None => [] case Some(e) => [e];
      assert (a + b)[0] == a[0];
      assert (a + b)[1..] == a[1..] + b;
      ValidateConcat(catalog, ledger, zone, a[1..], b);
      calc {
        Validate(catalog, ledger, zone, a + b);
        head + Validate(catalog, ledger, zone, a[1..] + b);
        head + (Validate(catalog, ledger, zone, a[1..]) + Validate(catalog, ledger, zone, b));
        (head + Validate(catalog, ledger, zone, a[1..])) + Validate(catalog, ledger, zone, b);
      }
    }
  }

  /** Exactly one error per failing line: a single line yields its own error or none. */
  lemma ValidateOneLine(catalog: Catalog, ledger: Ledger, zone: ZoneId, line: CartLine)
    ensures Validate(catalog, ledger, zone, [line]) ==
      match CheckLine(catalog, ledger, zone, line) case None => [] case Some(e) => [e]
  {
    assert [line][1..] == [];
  }

  /** Total quantity of product `p` requested over all lines of the cart. */
  function QuantityOf(cart: seq<CartLine>, p: ProductId): int {
    if |cart| == 0 then 0
    else (if cart[0].id == p then cart[0].quantity else 0) + QuantityOf(cart[1..], p)
  }

  predicate InCart(cart: seq<CartLine>, p: ProductId) {
    exists i :: 0 <= i < |cart| && cart[i].id == p
  }

  /** Sale total from its items: the sum of price snapshot times quantity. */
  function ItemsTotal(items: seq<SaleItem>): int {
    if |items| == 0 then 0 else items[0].priceAtSale * items[0].quantity + ItemsTotal(items[1..])
  }

  datatype Committed = Committed(ledger: Ledger, items: seq<SaleItem>, total: int)

  /**
   * Phase 2, line by line: snapshot the price of the product (looked up
   * without the active filter), record the item, decrement the ledger row
   * as it stands after the previous lines, and add the line to the total.
   */
  function Commit(catalog: Catalog, ledger: Ledger, zone: ZoneId, cart: seq<CartLine>): (c: Committed)
    requires forall i :: 0 <= i < |cart| ==> cart[i].id in catalog && (cart[i].id, zone) in ledger
    ensures c.ledger.Keys == ledger.Keys
    ensures forall k :: k in ledger ==>
      c.ledger[k] == ledger[k] - (if k.1 == zone then QuantityOf(cart, k.0) else 0)
    ensures |c.items| == |cart|
    ensures forall i :: 0 <= i < |cart| ==>
      c.items[i] == SaleItem(cart[i].id, cart[i].quantity, PriceOrZero(catalog[cart[i].id]))
    ensures c.total == ItemsTotal(c.items)
  {
    if |cart| == 0 then Committed(ledger, [], 0)
    else
      var line := cart[0];
      var key := (line.id, zone);
      var price := PriceOrZero(catalog[line.id]);
      var rest := Commit(catalog, ledger[key := ledger[key] - line.quantity], zone, cart[1..]);
      var items := [SaleItem(line.id, line.quantity, price)] + rest.items;
      assert items[1..] == rest.items;
      Committed(rest.ledger, items, price * line.quantity + rest.total)
  }

  /** `client_id if client_id else None`: an absent or zero client id records no client. */
  function ClientRef(client: Option<ClientId>): (r: Option<ClientId>)
    ensures r.Some? ==> r == client && r.value != 0
    ensures client.Some? && client.value != 0 ==> r == client
  {
    if client.Some? && client.value != 0 then client else None
  }

  /** The whole checkout: either the new shop and the sale it recorded, or the error and no change. */
  function Checkout(shop: Shop, client: Option<ClientId>, user: UserId, cart: seq<CartLine>): (r: Result<(Shop, Sale), CheckoutError>)
    ensures |cart| == 0 ==> r == Failure(EmptyCart)
    ensures |cart| > 0 && SalesZone(shop.zones).None? ==> r == Failure(NoSalesZone)
    ensures |cart| > 0 && SalesZone(shop.zones).Some? ==>
      var zone := SalesZone(shop.zones).value.id;
      var errors := Validate(shop.catalog, shop.ledger, zone, cart);
      (errors != [] <==> r == Failure(Rejected(errors)))
    ensures r.Success? <==>
      |cart| > 0 && SalesZone(shop.zones).Some? &&
      forall i :: 0 <= i < |cart| ==> LinePasses(shop.catalog, shop.ledger, SalesZone(shop.zones).value.id, cart[i])
    ensures r.Success? ==>
      var (shop', sale) := r.value;
      var zone := SalesZone(shop.zones).value.id;
      && shop'.catalog == shop.catalog
      && shop'.zones == shop.zones
      && shop'.sales == shop.sales + [sale]
      && sale.client == ClientRef(client)
      && sale.user == user
      && |sale.items| == |cart|
      && (forall i :: 0 <= i < |cart| ==>
            sale.items[i] == SaleItem(cart[i].id, cart[i].quantity, PriceOrZero(shop.catalog[cart[i].id])))
      && sale.total == ItemsTotal(sale.items)
      && shop'.ledger.Keys == shop.ledger.Keys
      && (forall k :: k in shop.ledger && k.1 == zone ==> shop'.ledger[k] == shop.ledger[k] - QuantityOf(cart, k.0))
      && (forall k :: k in shop.ledger && k.1 != zone ==> shop'.ledger[k] == shop.ledger[k])
  {
    if |cart| == 0 then Failure(EmptyCart)
    else match SalesZone(shop.zones)
      case None => Failure(NoSalesZone)
      case Some(z) =>
        var errors := Validate(shop.catalog, shop.ledger, z.id, cart);
        if errors != [] then Failure(Rejected(errors))
        else
          var c := Commit(shop.catalog, shop.ledger, z.id, cart);
          var sale := Sale(ClientRef(client), user, c.items, c.total);
          Success((shop.(ledger := c.ledger, sales := shop.sales + [sale]), sale))
  }

  /**
   * The request as a state transition (`transaction.atomic`): the shop after
   * the request, and the response. A refused checkout leaves the shop as it was.
   */
  function ProcessSale(shop: Shop, client: Option<ClientId>, user: UserId, cart: seq<CartLine>): (out: (Shop, Result<Sale, CheckoutError>))
    ensures out.1.Failure? ==> out.0 == shop
    ensures out.1.Failure? ==> Checkout(shop, client, user, cart) == Failure(out.1.error)
    ensures out.1.Success? ==> out.0.sales == shop.sales + [out.1.value] && out.0.catalog == shop.catalog
    ensures out.1.Success? <==> Checkout(shop, client, user, cart).Success?
    ensures out.1.Success? ==> Checkout(shop, client, user, cart) == Success((out.0, out.1.value))
  {
    match Checkout(shop, client, user, cart)
    case Success((shop', sale)) => (shop', Success(sale))
    case Failure(e) => (shop, Failure(e))
  }
}
