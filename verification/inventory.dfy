/**
 * The entities the endpoints read and the stock ledger they share.
 *
 * The database is replaced by plain values: the catalogue is a map from
 * product id to product, the zone table is a sequence in primary-key order,
 * and the Inventory table is a ledger map from (product, zone) to quantity,
 * so there is at most one row per pair.
 */
module Inventory {
  import opened Wrappers

  type ProductId = int
  type ZoneId = int
  type WarehouseId = int

  /** A product; `salePrice` is the nullable `precio_venta`, in minor currency units. */
  datatype Product = Product(id: ProductId, name: string, sku: string, salePrice: Option<int>, active: bool)

  datatype Warehouse = Warehouse(id: WarehouseId, name: string)

  /** A zone, joined with its warehouse as `select_related('zone__warehouse')` does. */
  datatype Zone = Zone(id: ZoneId, name: string, warehouse: Warehouse, active: bool)

  type Catalog = map<ProductId, Product>

  /** The Inventory table: quantity per (product, zone) row. Quantities may be negative. */
  type Ledger = map<(ProductId, ZoneId), int>

  /** `product.precio_venta or 0`: a missing price counts as zero. */
  function PriceOrZero(p: Product): int {
    p.salePrice.GetOr(0)
  }

  /** Zone ids are primary keys, so no id appears twice in the zone table. */
  predicate DistinctZoneIds(zones: seq<Zone>) {
    forall i, j :: 0 <= i < j < |zones| ==> zones[i].id != zones[j].id
  }

  predicate HasZone(zones: seq<Zone>, id: ZoneId) {
    exists i :: 0 <= i < |zones| && zones[i].id == id
  }

  /** One Inventory row of a product, with its zone. */
  datatype ZoneStock = ZoneStock(zone: Zone, quantity: int)

  /** Each zone contributes at most one row: a product has one Inventory row per zone. */
  predicate DistinctRowZones(rows: seq<ZoneStock>) {
    forall k, l :: 0 <= k < l < |rows| ==> rows[k].zone.id != rows[l].zone.id
  }

  /** All Inventory rows of product `p` (`product.stock.all()`), in zone order. */
  function StockRows(ledger: Ledger, zones: seq<Zone>, p: ProductId): (r: seq<ZoneStock>)
    ensures |r| <= |zones|
    ensures forall k :: 0 <= k < |r| ==>
      r[k].zone in zones && (p, r[k].zone.id) in ledger && r[k].quantity == ledger[(p, r[k].zone.id)]
    ensures forall i :: 0 <= i < |zones| && (p, zones[i].id) in ledger ==>
      ZoneStock(zones[i], ledger[(p, zones[i].id)]) in r
    ensures DistinctZoneIds(zones) ==> DistinctRowZones(r)
  {
    if |zones| == 0 then []
    else
      var z := zones[0];
      (if (p, z.id) in ledger then [ZoneStock(z, ledger[(p, z.id)])] else [])
      + StockRows(ledger, zones[1..], p)
  }

  function SumStock(rows: seq<ZoneStock>): int {
    if |rows| == 0 then 0 else rows[0].quantity + SumStock(rows[1..])
  }

  /** Total stock of a product: the sum over all of its rows, zero and negative rows included. */
  function TotalStock(ledger: Ledger, zones: seq<Zone>, p: ProductId): int {
    SumStock(StockRows(ledger, zones, p))
  }

  /** The stock lookup: only the rows with quantity > 0, in zone order. */
  function StockInfo(ledger: Ledger, zones: seq<Zone>, p: ProductId): (r: seq<ZoneStock>)
    ensures forall k :: 0 <= k < |r| ==> r[k].quantity > 0 && r[k] in StockRows(ledger, zones, p)
    ensures forall i :: 0 <= i < |zones| && (p, zones[i].id) in ledger && ledger[(p, zones[i].id)] > 0 ==>
      ZoneStock(zones[i], ledger[(p, zones[i].id)]) in r
    ensures DistinctZoneIds(zones) ==> DistinctRowZones(r)
  {
    Positive(StockRows(ledger, zones, p))
  }

  function Positive(rows: seq<ZoneStock>): (r: seq<ZoneStock>)
    ensures forall k :: 0 <= k < |r| ==> r[k].quantity > 0 && r[k] in rows
    ensures forall k :: 0 <= k < |rows| && rows[k].quantity > 0 ==> rows[k] in r
    ensures DistinctRowZones(rows) ==> DistinctRowZones(r)
  {
    if |rows| == 0 then []
    else (if rows[0].quantity > 0 then [rows[0]] else []) + Positive(rows[1..])
  }

  /** The rows a positive-only listing drops add up to at most zero. */
  lemma {:induction false} PositiveSumSplit(rows: seq<ZoneStock>)
    ensures SumStock(rows) <= SumStock(Positive(rows))
    ensures (forall k :: 0 <= k < |rows| ==> rows[k].quantity >= 0) ==> SumStock(rows) == SumStock(Positive(rows))
  {
    if |rows| > 0 {
      PositiveSumSplit(rows[1..]);
      var head := if rows[0].quantity > 0 then [rows[0]] else [];
      SumStockConcat(head, Positive(rows[1..]));
    }
  }

  lemma {:induction false} SumStockConcat(a: seq<ZoneStock>, b: seq<ZoneStock>)
    ensures SumStock(a + b) == SumStock(a) + SumStock(b)
  {
    if |a| == 0 {
      assert a + b == b;
    } else {
      assert (a + b)[1..] == a[1..] + b;
      SumStockConcat(a[1..], b);
    }
  }

  /**
   * The two stock conventions: the listing total never exceeds the sum the
   * stock lookup shows, and they agree whenever no row of the product is negative.
   */
  lemma TotalStockVersusStockInfo(ledger: Ledger, zones: seq<Zone>, p: ProductId)
    ensures TotalStock(ledger, zones, p) <= SumStock(StockInfo(ledger, zones, p))
    ensures (forall z :: (p, z) in ledger ==> ledger[(p, z)] >= 0) ==>
      TotalStock(ledger, zones, p) == SumStock(StockInfo(ledger, zones, p))
  {
    PositiveSumSplit(StockRows(ledger, zones, p));
  }

  /** A negative row makes the two conventions disagree: 5 + (-3) listed as 2, looked up as 5. */
  lemma StockViewsCanDisagree()
    ensures var w := Warehouse(1, "Central");
            var zones := [Zone(1, "A", w, true), Zone(2, "B", w, true)];
            var ledger := map[(7, 1) := 5, (7, 2) := -3];
            TotalStock(ledger, zones, 7) == 2 && SumStock(StockInfo(ledger, zones, 7)) == 5
  {
    var w := Warehouse(1, "Central");
    var zones := [Zone(1, "A", w, true), Zone(2, "B", w, true)];
    assert zones[1..][1..] == [];
  }

  /**
   * Changing one ledger entry of product `p` changes its total stock by the
   * same amount, provided the entry's zone is listed exactly once.
   */
  lemma {:induction false} TotalStockAfterUpdate(ledger: Ledger, ledger': Ledger, zones: seq<Zone>, p: ProductId, zone: ZoneId)
    requires DistinctZoneIds(zones)
    requires ledger'.Keys == ledger.Keys
    requires forall z :: (p, z) in ledger && z != zone ==> ledger'[(p, z)] == ledger[(p, z)]
    ensures TotalStock(ledger', zones, p) == TotalStock(ledger, zones, p)
      + (if (p, zone) in ledger && HasZone(zones, zone) then ledger'[(p, zone)] - ledger[(p, zone)] else 0)
  {
    if |zones| > 0 {
      var rest := zones[1..];
      assert DistinctZoneIds(rest);
      TotalStockAfterUpdate(ledger, ledger', rest, p, zone);
      var z := zones[0];
      SumStockConcat(if (p, z.id) in ledger then [ZoneStock(z, ledger[(p, z.id)])] else [], StockRows(ledger, rest, p));
      SumStockConcat(if (p, z.id) in ledger' then [ZoneStock(z, ledger'[(p, z.id)])] else [], StockRows(ledger', rest, p));
      if z.id == zone {
        assert HasZone(zones, zone) by { assert zones[0].id == zone; }
        assert !HasZone(rest, zone);
      } else {
        assert HasZone(zones, zone) <==> HasZone(rest, zone) by {
          if HasZone(zones, zone) {
            var i :| 0 <= i < |zones| && zones[i].id == zone;
            assert rest[i - 1].id == zone;
          }
          if HasZone(rest, zone) {
            var i :| 0 <= i < |rest| && rest[i].id == zone;
            assert zones[i + 1].id == zone;
          }
        }
      }
    }
  }
}
