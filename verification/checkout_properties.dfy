/** Properties of the checkout that relate several calls or the ledger's derived views. */
module PointOfSaleProperties {
  import opened Wrappers
  import opened Inventory
  import opened SalesZones
  import opened PointOfSale

  lemma {:induction false} QuantityOfAbsent(cart: seq<CartLine>, p: ProductId)
    requires !InCart(cart, p)
    ensures QuantityOf(cart, p) == 0
  {
    if |cart| > 0 {
      assert !InCart(cart[1..], p);
      QuantityOfAbsent(cart[1..], p);
    }
  }

  predicate DistinctProducts(cart: seq<CartLine>) {
    forall i, j :: 0 <= i < j < |cart| ==> cart[i].id != cart[j].id
  }

  /** With distinct product ids, the quantity requested for a product is that of its one line. */
  lemma {:induction false} QuantityOfDistinct(cart: seq<CartLine>, i: nat)
    requires DistinctProducts(cart) && i < |cart|
    ensures QuantityOf(cart, cart[i].id) == cart[i].quantity
  {
    var p := cart[i].id;
    if i == 0 {
      assert !InCart(cart[1..], p);
      QuantityOfAbsent(cart[1..], p);
    } else {
      assert cart[0].id != p;
      assert cart[1..][i - 1] == cart[i];
      QuantityOfDistinct(cart[1..], i - 1);
    }
  }

  /**
   * Conservation of stock: a successful checkout lowers every product's
   * total stock (the listing's sum over all zones) by exactly the quantity
   * the cart requests for it.
   */
  lemma CheckoutConservesStock(shop: Shop, client: Option<ClientId>, user: UserId, cart: seq<CartLine>, p: ProductId)
    requires DistinctZoneIds(shop.zones)
    requires Checkout(shop, client, user, cart).Success?
    ensures TotalStock(Checkout(shop, client, user, cart).value.0.ledger, shop.zones, p)
         == TotalStock(shop.ledger, shop.zones, p) - QuantityOf(cart, p)
  {
    var shop' := Checkout(shop, client, user, cart).value.0;
    var z := SalesZone(shop.zones).value;
    assert HasZone(shop.zones, z.id) by {
      var i :| 0 <= i < |shop.zones| && shop.zones[i] == z;
    }
    TotalStockAfterUpdate(shop.ledger, shop'.ledger, shop.zones, p, z.id);
    if (p, z.id) !in shop.ledger {
      assert !InCart(cart, p);
      QuantityOfAbsent(cart, p);
    }
  }

  /**
   * When no product appears twice in the cart, the sales-zone row of every
   * sold product stays at or above zero, and a ledger with no negative row
   * keeps none.
   */
  lemma CheckoutKeepsStockNonNegative(shop: Shop, client: Option<ClientId>, user: UserId, cart: seq<CartLine>)
    requires DistinctProducts(cart)
    requires Checkout(shop, client, user, cart).Success?
    ensures var ledger' := Checkout(shop, client, user, cart).value.0.ledger;
            var zone := SalesZone(shop.zones).value.id;
            forall i :: 0 <= i < |cart| ==> ledger'[(cart[i].id, zone)] >= 0
    ensures (forall k :: k in shop.ledger ==> shop.ledger[k] >= 0) ==>
            var ledger' := Checkout(shop, client, user, cart).value.0.ledger;
            forall k :: k in ledger' ==> ledger'[k] >= 0
  {
    var ledger' := Checkout(shop, client, user, cart).value.0.ledger;
    var zone := SalesZone(shop.zones).value.id;
    forall i | 0 <= i < |cart|
      ensures ledger'[(cart[i].id, zone)] >= 0
    {
      assert LinePasses(shop.catalog, shop.ledger, zone, cart[i]);
      QuantityOfDistinct(cart, i);
    }
    if forall k :: k in shop.ledger ==> shop.ledger[k] >= 0 {
      forall k | k in ledger'
        ensures ledger'[k] >= 0
      {
        if k.1 == zone {
          if InCart(cart, k.0) {
            var i :| 0 <= i < |cart| && cart[i].id == k.0;
            assert ledger'[(cart[i].id, zone)] >= 0;
          } else {
            QuantityOfAbsent(cart, k.0);
          }
        }
      }
    }
  }

  /** An empty cart is refused before anything is read, and nothing changes. */
  lemma EmptyCartChangesNothing(shop: Shop, client: Option<ClientId>, user: UserId)
    ensures ProcessSale(shop, client, user, []) == (shop, Failure(EmptyCart))
  {
  }

  /** Without an active zone a non-empty cart is refused and nothing changes. */
  lemma NoActiveZoneChangesNothing(shop: Shop, client: Option<ClientId>, user: UserId, cart: seq<CartLine>)
    requires |cart| > 0
    requires forall j :: 0 <= j < |shop.zones| ==> !shop.zones[j].active
    ensures ProcessSale(shop, client, user, cart) == (shop, Failure(NoSalesZone))
  {
  }

  /** A line that asks for more than the sales zone holds makes the whole checkout fail unchanged. */
  lemma InsufficientLineRejectsAll(shop: Shop, client: Option<ClientId>, user: UserId, cart: seq<CartLine>, i: nat)
    requires i < |cart|
    requires SalesZone(shop.zones).Some?
    requires var zone := SalesZone(shop.zones).value.id;
             var line := cart[i];
             line.id in shop.catalog && shop.catalog[line.id].active &&
             (line.id, zone) in shop.ledger && shop.ledger[(line.id, zone)] < line.quantity
    ensures var zone := SalesZone(shop.zones).value.id;
            var out := ProcessSale(shop, client, user, cart);
            out.0 == shop && out.1.Failure? && out.1.error.Rejected? &&
            Insufficient(cart[i].id, shop.ledger[(cart[i].id, zone)], cart[i].quantity) in out.1.error.errors
  {
    var zone := SalesZone(shop.zones).value.id;
    var catalog, ledger := shop.catalog, shop.ledger;
    assert cart == cart[..i] + [cart[i]] + cart[i + 1..];
    ValidateConcat(catalog, ledger, zone, cart[..i] + [cart[i]], cart[i + 1..]);
    ValidateConcat(catalog, ledger, zone, cart[..i], [cart[i]]);
    ValidateOneLine(catalog, ledger, zone, cart[i]);
  }

  /** One pencil (product 5, price 1000) bought twice from a sales-zone stock of 10: total 2000, stock 8. */
  lemma SingleLineSale()
    ensures var w := Warehouse(1, "Central");
            var zone := Zone(3, "Ventas", w, true);
            var shop := Shop(map[5 := Product(5, "Lapiz", "L-5", Some(1000), true)], [zone], map[(5, 3) := 10], []);
            var r := Checkout(shop, None, 1, [CartLine(5, 2)]);
            r.Success? && r.value.1.total == 2000 && r.value.0.ledger[(5, 3)] == 8
  {
    var w := Warehouse(1, "Central");
    var zone := Zone(3, "Ventas", w, true);
    assert IsActive(zone);
    assert SalesZone([zone]).Some?;
    var cart := [CartLine(5, 2)];
    assert cart[1..] == [];
  }

  /** Asking for 20 against a stock of 10 is refused with the available and requested amounts. */
  lemma InsufficientStockExample()
    ensures var w := Warehouse(1, "Central");
            var zone := Zone(3, "Ventas", w, true);
            var shop := Shop(map[5 := Product(5, "Lapiz", "L-5", Some(1000), true)], [zone], map[(5, 3) := 10], []);
            ProcessSale(shop, None, 1, [CartLine(5, 20)]) == (shop, Failure(Rejected([Insufficient(5, 10, 20)])))
  {
    var w := Warehouse(1, "Central");
    var zone := Zone(3, "Ventas", w, true);
    assert IsActive(zone);
    assert SalesZone([zone]) == Some(zone);
    var shop := Shop(map[5 := Product(5, "Lapiz", "L-5", Some(1000), true)], [zone], map[(5, 3) := 10], []);
    ValidateOneLine(shop.catalog, shop.ledger, 3, CartLine(5, 20));
  }

  /**
   * Each line is checked against the full stock on its own, so a cart that
   * names a product twice can sell more than there is: two lines of 6
   * against a stock of 10 pass and leave -2.
   */
  lemma DuplicateLinesCanOverdraw()
    ensures var w := Warehouse(1, "Central");
            var zone := Zone(3, "Ventas", w, true);
            var shop := Shop(map[5 := Product(5, "Lapiz", "L-5", Some(1000), true)], [zone], map[(5, 3) := 10], []);
            var r := Checkout(shop, None, 1, [CartLine(5, 6), CartLine(5, 6)]);
            r.Success? && r.value.0.ledger[(5, 3)] == -2
  {
    var w := Warehouse(1, "Central");
    var zone := Zone(3, "Ventas", w, true);
    assert IsActive(zone);
    assert SalesZone([zone]).Some?;
    var cart := [CartLine(5, 6), CartLine(5, 6)];
    assert cart[1..][1..] == [];
  }

  /** Quantities are not checked for sign: a line of -5 passes, adds 5 to the stock and makes the total negative. */
  lemma NegativeQuantityRestocks()
    ensures var w := Warehouse(1, "Central");
            var zone := Zone(3, "Ventas", w, true);
            var shop := Shop(map[5 := Product(5, "Lapiz", "L-5", Some(1000), true)], [zone], map[(5, 3) := 10], []);
            var r := Checkout(shop, None, 1, [CartLine(5, -5)]);
            r.Success? && r.value.0.ledger[(5, 3)] == 15 && r.value.1.total == -5000
  {
    var w := Warehouse(1, "Central");
    var zone := Zone(3, "Ventas", w, true);
    assert IsActive(zone);
    assert SalesZone([zone]).Some?;
    var cart := [CartLine(5, -5)];
    assert cart[1..] == [];
  }
}
