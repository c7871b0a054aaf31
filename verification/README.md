# Point-of-sale and purchasing core of aplicacion-lilis, in Dafny

This project models the stateful logic in `gestion/views/api_views.py` of the
aplicacion-lilis inventory application. The database is replaced by plain
values:

- the product catalogue is a map from product id to `Product`, with an active
  flag and a nullable sale price in minor currency units;
- the zone table is a sequence of zones in primary-key order, each joined with
  its warehouse;
- the Inventory table is a ledger `map<(ProductId, ZoneId), int>`, so there is
  at most one row per (product, zone) pair;
- supplier orders are a map from order id to an order whose items are a
  sequence in database order.

On that state it models:

- **Checkout** (`process_sale`, module `PointOfSale`). An empty cart is
  refused. The sales zone is chosen. Every cart line is checked on its own, and
  one error is collected per failing line. Only when there is no error is one
  sale recorded, with a price snapshot per line. The ledger is decremented line
  by line and the total is accumulated. The function is pure, so a refused
  checkout produces no new state: this is the model of `transaction.atomic`.
- **Sales-zone choice** (`get_sales_zone`, module `SalesZones`). The first
  active zone whose name contains "venta", ignoring case. Otherwise the first
  active zone. Otherwise none.
- **Supplier-order upsert** (`add_product_to_order`, module `Purchasing`). The
  guards are checked in the source's order. Then the first item for the
  product is found or created: quantities add up, and the unit price is
  overwritten with the supplier cost, or the sale price when there is no cost.
  The module also models `get_order_items`.
- **Stock views** (module `Inventory`). A product's total stock is the sum of
  all its rows, as the search and listing endpoints compute it. The stock
  lookup keeps only rows with quantity > 0.
- **Search and pagination** (module `ProductQueries`). Queries shorter than 2
  characters return nothing, and at most 10 results are returned. Pages use
  Python floor division and Django's slicing rules.
- **Warehouse grouping** (module `WarehouseGrouping`). Zones with stock are
  grouped under their warehouse, in the order of each warehouse's first row.

The model follows the code as written:

- cart quantities are not checked for sign;
- the sales-zone token is "venta";
- a supplier cost of 0 counts as missing, so it falls back to the sale price;
- the second phase of checkout fetches products without the active filter.

Two consequences of the code as written are stated as lemmas:

- `DuplicateLinesCanOverdraw`: each line is checked against the full stock, so
  a product named twice in one cart can drive its row negative;
- `NegativeQuantityRestocks`: a negative quantity passes the check and raises
  the stock.

`CheckoutKeepsStockNonNegative` shows that with distinct product ids no
sales-zone row is overdrawn; a negative quantity still passes and restocks.

## Model

| member | source | states |
|---|---|---|
| Seqs.FirstWhere | gestion/views/api_views.py:127-130 | `.first()` of a filtered query: the index returned satisfies the filter and no earlier row does; None exactly when no row does |
| Text.Contains | gestion/views/api_views.py:128 | substring test: true exactly when the pattern occurs at some position of the text |
| SalesZones.SalesZoneIndex | gestion/views/api_views.py:120-138 | the chosen zone is active; if some active zone's name contains "venta" (any case), it is the first such zone; otherwise it is the first active zone; none exactly when no zone is active |
| SalesZones.SalesZone | gestion/views/api_views.py:120-138 | the sales zone is an active zone of the table, and there is none exactly when no zone is active |
| SalesZones.PrefersNamedZone | gestion/views/api_views.py:126-134 | "Zona VENTAS" is chosen over an earlier active zone whose name lacks the token |
| PointOfSale.Validate | gestion/views/api_views.py:249-266 | at most one error per line; no errors exactly when every line has an active product, a sales-zone row and enough stock; every error is the error of some line |
| PointOfSale.ValidateConcat | gestion/views/api_views.py:249-269 | errors are collected line by line in cart order: the errors of a concatenated cart are the errors of its parts, concatenated |
| PointOfSale.ValidateOneLine | gestion/views/api_views.py:254-266 | a single line yields exactly its own error (product not found, no stock row, or insufficient with available and requested) or none |
| PointOfSale.Commit | gestion/views/api_views.py:283-304 | one item per cart line, in order, with the price snapshot `precio_venta or 0`; each sales-zone row drops by the sum of that product's requested quantities and no other row changes; the total is the sum of price × quantity over the items |
| PointOfSale.ClientRef | gestion/views/api_views.py:275 | the sale records the client only when a non-zero client id was given |
| PointOfSale.Checkout | gestion/views/api_views.py:232-313 | empty cart and missing sales zone are refused first; the cart is rejected with the validation errors exactly when there are any; success exactly when every line passes, and then one sale is appended with one item per line, the ledger keeps its rows, sales-zone rows drop by the requested quantity and all other rows are unchanged |
| PointOfSale.ProcessSale | gestion/views/api_views.py:268-308 | all-or-nothing: after a refused checkout the shop is unchanged and the response carries the checkout's error; after a successful one the shop and sale are exactly those of the checkout, so the ledger is decremented and exactly the new sale is appended |
| PointOfSaleProperties.CheckoutConservesStock | gestion/views/api_views.py:283-302 | after a successful checkout every product's total stock (sum over all zones) has dropped by exactly the quantity the cart requested for it |
| PointOfSaleProperties.CheckoutKeepsStockNonNegative | gestion/views/api_views.py:258 | with distinct product ids in the cart, every sold product's sales-zone row ends at or above zero, and a ledger without negative rows keeps none |
| PointOfSaleProperties.EmptyCartChangesNothing | gestion/views/api_views.py:241-242 | an empty cart is refused and the shop is unchanged |
| PointOfSaleProperties.NoActiveZoneChangesNothing | gestion/views/api_views.py:244-246 | with no active zone a non-empty cart is refused with "no sales zone" and the shop is unchanged |
| PointOfSaleProperties.InsufficientLineRejectsAll | gestion/views/api_views.py:258-269 | one line asking for more than its sales-zone row holds makes the whole checkout fail, unchanged, with an error naming the available and requested amounts |
| PointOfSaleProperties.SingleLineSale | gestion/views/api_views.py:283-308 | 2 units at price 1000 from a stock of 10: total 2000, stock 8 |
| PointOfSaleProperties.InsufficientStockExample | gestion/views/api_views.py:258-262 | 20 units from a stock of 10 is refused with available 10, requested 20, and nothing changes |
| PointOfSaleProperties.DuplicateLinesCanOverdraw | gestion/views/api_views.py:258 | two lines of 6 for the same product against a stock of 10 both pass and leave the row at -2 |
| PointOfSaleProperties.NegativeQuantityRestocks | gestion/views/api_views.py:252-258 | a line of -5 passes, raises the stock from 10 to 15 and makes the total negative |
| Inventory.StockRows | gestion/views/api_views.py:163 | the rows of a product (`product.stock.all()`): each is a ledger row of that product in a listed zone, every such row is present, and with distinct zone ids no zone contributes two rows |
| Inventory.StockInfo | gestion/views/api_views.py:25-28 | the stock lookup lists only rows with quantity > 0, every such row of the product, and with distinct zone ids each zone at most once |
| Inventory.TotalStockVersusStockInfo | gestion/views/api_views.py:161-164 | the all-rows total never exceeds the sum of the positive rows, and the two agree when the product has no negative row |
| Inventory.StockViewsCanDisagree | gestion/views/api_views.py:25-28 | with rows 5 and -3 the listing reports 2 while the lookup shows 5 |
| Purchasing.SupplierLink | gestion/views/api_views.py:365-368 | `.first()`: the link found joins the given product and supplier and no earlier link does; none exactly when no such link exists |
| Purchasing.UnitPrice | gestion/views/api_views.py:374 | the supplier cost when it is set and non-zero, else the product's sale price |
| Purchasing.ItemFor | gestion/views/api_views.py:377 | `.first()`: the item found is for the product and no earlier item is; none exactly when the order has no item for it |
| Purchasing.UpsertItem | gestion/views/api_views.py:376-394 | the product's item afterwards has the old quantity (or 0) plus the added quantity and the new price; that item keeps its position and every other item keeps its position and value, the new item being appended only at the end; at most one item per product is preserved; one item is added only when none existed; total quantity grows by the added quantity |
| Purchasing.AddProductToOrder | gestion/views/api_views.py:341-429 | guards in order: permission (superuser, admin or bodega), order exists, status PENDING, quantity > 0, active product, supplier link; success exactly when all pass, and then only this order's items change, by the upsert, with action "updated" exactly when an item existed and total quantity = old total + quantity |
| Purchasing.OrderItems | gestion/views/api_views.py:437-466 | an unknown order is "not found"; otherwise the order's items and their total quantity, summed by the endpoint's loop |
| Purchasing.AddTwiceMerges | gestion/views/api_views.py:376-394 | adding a product twice to a pending order succeeds both times and leaves one item holding the sum of both quantities |
| ProductQueries.QueryText | gestion/views/api_views.py:148 | the `q` parameter when non-empty, else the `query` parameter, else (neither given, or `q` empty and no `query`) the empty string |
| ProductQueries.Search | gestion/views/api_views.py:148-177 | a query shorter than 2 characters gives no results; otherwise exactly the listings of the first min(10, #matches) matching products, in query order |
| ProductQueries.SearchResultsMatch | gestion/views/api_views.py:154-174 | every search result lists a product of the table that is active and whose name or SKU contains the query ignoring case, with price-or-0 and all-rows stock |
| ProductQueries.SearchComplete | gestion/views/api_views.py:154-174 | when fewer than 10 results come back, every matching product of the table is among them |
| ProductQueries.FloorDivRoundsDown | gestion/views/api_views.py:223 | Python's `//`: the quotient rounded toward negative infinity, for either sign of divisor |
| ProductQueries.TotalPagesIsCeiling | gestion/views/api_views.py:223 | for a positive page size, `total_pages` is the ceiling of count / page size |
| ProductQueries.PageAt | gestion/views/api_views.py:192-224 | fails exactly on a negative slice bound or a zero page size; otherwise the page lists the products from the start index in order, min(page_size, remaining) of them for a positive page size and none for a negative one, with the count and page count |
| ProductQueries.ListPage | gestion/views/api_views.py:192-224 | the page of the active products starting at `(page-1)*page_size`: fails exactly when a slice bound is negative or the page size is zero; otherwise reports the active count and its page count |
| ProductQueries.PageNonEmptyIffWithinTotalPages | gestion/views/api_views.py:194-223 | for page ≥ 1 and positive page size, the page is non-empty exactly when page ≤ total_pages |
| ProductQueries.EveryProductOnItsPage | gestion/views/api_views.py:194-197 | the j-th active product appears on page j / page_size + 1 at position j mod page_size |
| WarehouseGrouping.GroupByWarehouse | gestion/views/api_views.py:57-76 | one group per warehouse with a row, ids distinct; each group holds exactly its warehouse's rows in row order and the name from its first row; groups are ordered by first appearance |
| WarehouseGrouping.PlaceKeepsGrouping | gestion/views/api_views.py:58-73 | one loop step keeps the grouping invariant when the next row is appended |
| WarehouseGrouping.ProductWarehouses | gestion/views/api_views.py:44-81 | the grouping of the product's positive rows; every listed zone has stock > 0 and belongs to its group's warehouse |

## Left out

- HTTP, JSON decoding, response shapes, status codes, the `login_required`, `api_view` and `permission_classes` decorators, and the generic `except Exception` handlers. Errors are a datatype per endpoint.
- JSON parsing of request bodies and query strings. This covers `item.get('id')`, `item.get('quantity', 0)`, `int(data.get('quantity', 1))`, and the `page` and `page_size` parameters with their defaults 1 and 50. Inputs arrive already decoded as integers; a malformed value, which the source reports as a server error, is not modelled.
- The exact Spanish error messages, the sale id in the success message, its `${total:,.0f}` formatting, and `str(zone)`.
- The `float(...)` conversion of prices. Prices are integers in minor units, not `Decimal`.
- Concurrency between requests and database isolation. Because the model is sequential, phase 2 of checkout cannot meet a product or row that phase 1 did not see.
- The ordering of query results. Zones, links and order items are sequences in the database's order, and a product's Inventory rows are listed in zone-table order, although the stock queries set no order; that order decides the order of the stock lookup's list and of the warehouse groups. The search takes products in the order the query returns them, and the listing takes them in name order. Sorting by name under the database's collation is not modelled.
- Text.Lower: case folding covers ASCII letters only, as SQLite's `LIKE` does; a database folding other letters matches more names.
- Purchasing.UnitPrice: when a supplier has no cost and the product no price, the price is None. Whether the database accepts a null unit price depends on a model file that is not part of this model.
- Database constraints on quantities and foreign keys. The model assumes that the Inventory and sale-item quantity columns accept any integer and that a non-zero client id names an existing client. If a quantity column rejects negative values, or the client does not exist, the `create`/`save` calls inside the atomic block raise, the transaction rolls back and the endpoint answers with a server error; `DuplicateLinesCanOverdraw`, `NegativeQuantityRestocks` and `ClientRef` describe the code under that assumption.
- The `subtotal` of a supplier order item, which is defined in a model file that is not part of this model.
- ProductQueries.ListPage: with a negative page size and a page ≤ 0, both slice bounds are non-negative and the stop is before the start. The model gives an empty page, following Django's clamping of query limits; the database is not consulted.
- `get_all_zones`, `get_zones_by_warehouse` and `get_product_price`: single-filter reads outside the modelled core.
- The `Product.DoesNotExist` handler of `get_product_stock_info` can never fire, because the query filters the Inventory table. The model returns an empty list for an unknown product.
