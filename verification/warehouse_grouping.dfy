/**
 * `get_product_warehouses_and_zones`: the zones holding a product (stock
 * > 0), grouped under their warehouse. Warehouses appear in the order of
 * their first row, and each keeps its zones in row order.
 */
module WarehouseGrouping {
  import opened Wrappers
  import opened Seqs
  import opened Inventory

  /** One warehouse of the response, named as in its first row, with the rows of its zones. */
  datatype WarehouseGroup = WarehouseGroup(id: WarehouseId, name: string, zones: seq<ZoneStock>)

  /** The rows whose zone belongs to warehouse `w`, in row order. */
  function RowsIn(rows: seq<ZoneStock>, w: WarehouseId): (r: seq<ZoneStock>)
    ensures forall k :: 0 <= k < |r| ==> r[k] in rows && r[k].zone.warehouse.id == w
  {
    if |rows| == 0 then []
    else
      var last := rows[|rows| - 1];
      RowsIn(rows[..|rows| - 1], w) + (if last.zone.warehouse.id == w then [last] else [])
  }

  /** Position of the first row in warehouse `w`. */
  function FirstRowOf(rows: seq<ZoneStock>, w: WarehouseId): Option<nat> {
    FirstWhere(rows, (r: ZoneStock) => r.zone.warehouse.id == w)
  }

  predicate DistinctIds(groups: seq<WarehouseGroup>) {
    forall i, j :: 0 <= i < j < |groups| ==> groups[i].id != groups[j].id
  }

  /** Each group holds exactly its warehouse's rows, in row order. */
  predicate HoldsItsRows(rows: seq<ZoneStock>, groups: seq<WarehouseGroup>) {
    forall i :: 0 <= i < |groups| ==> groups[i].zones == RowsIn(rows, groups[i].id)
  }

  /** Each group's warehouse has a row, and the group carries the name from the first one. */
  predicate NamedByFirstRow(rows: seq<ZoneStock>, groups: seq<WarehouseGroup>) {
    forall i :: 0 <= i < |groups| ==>
      var first := FirstRowOf(rows, groups[i].id);
      first.Some? && rows[first.value].zone.warehouse.name == groups[i].name
  }

  /** Groups are ordered by the position of their first row. */
  predicate OrderedByFirstRow(rows: seq<ZoneStock>, groups: seq<WarehouseGroup>)
    requires NamedByFirstRow(rows, groups)
  {
    forall i, j :: 0 <= i < j < |groups| ==>
      FirstRowOf(rows, groups[i].id).value < FirstRowOf(rows, groups[j].id).value
  }

  predicate HasGroup(groups: seq<WarehouseGroup>, w: WarehouseId) {
    exists i :: 0 <= i < |groups| && groups[i].id == w
  }

  /** Every row's warehouse has a group. */
  predicate CoversRows(rows: seq<ZoneStock>, groups: seq<WarehouseGroup>) {
    forall k :: 0 <= k < |rows| ==> HasGroup(groups, rows[k].zone.warehouse.id)
  }

  /**
   * `groups` is the grouping of `rows`: one group per warehouse that has a
   * row and no other; each group holds exactly that warehouse's rows in
   * order and carries the name from its first row; groups are ordered by
   * their first row.
   */
  predicate IsGrouping(rows: seq<ZoneStock>, groups: seq<WarehouseGroup>) {
    && DistinctIds(groups)
    && HoldsItsRows(rows, groups)
    && NamedByFirstRow(rows, groups)
    && OrderedByFirstRow(rows, groups)
    && CoversRows(rows, groups)
  }

  /** Position of the group for warehouse `w` (`w in warehouses_dict`). */
  function GroupIndex(groups: seq<WarehouseGroup>, w: WarehouseId): Option<nat> {
    FirstWhere(groups, (g: WarehouseGroup) => g.id == w)
  }

  /** One step of the loop: append the row to its warehouse's group, creating the group on first sight. */
  function Place(groups: seq<WarehouseGroup>, row: ZoneStock): seq<WarehouseGroup> {
    var w := row.zone.warehouse;
    match GroupIndex(groups, w.id)
    case Some(i) => groups[i := groups[i].(zones := groups[i].zones + [row])]
    case None => groups + [WarehouseGroup(w.id, w.name, [row])]
  }

  lemma RowsInAbsent(rows: seq<ZoneStock>, w: WarehouseId)
    requires forall k :: 0 <= k < |rows| ==> rows[k].zone.warehouse.id != w
    ensures RowsIn(rows, w) == []
  {
    if |rows| > 0 {
      RowsInAbsent(rows[..|rows| - 1], w);
    }
  }

  lemma RowsInAppend(rows: seq<ZoneStock>, row: ZoneStock, v: WarehouseId)
    ensures RowsIn(rows + [row], v) == RowsIn(rows, v) + (if row.zone.warehouse.id == v then [row] else [])
  {
    assert (rows + [row])[..|rows|] == rows;
  }

  lemma FirstRowOfAppend(rows: seq<ZoneStock>, row: ZoneStock, v: WarehouseId)
    ensures FirstRowOf(rows + [row], v) ==
      if FirstRowOf(rows, v).Some? then FirstRowOf(rows, v)
      else if row.zone.warehouse.id == v then Some(|rows|) else None
  {
    FirstWhereAppend(rows, row, (r: ZoneStock) => r.zone.warehouse.id == v);
  }

  /** Appending a row leaves the first row of every warehouse that already had one where it was. */
  lemma FirstRowsKept(rows: seq<ZoneStock>, groups: seq<WarehouseGroup>, row: ZoneStock)
    requires NamedByFirstRow(rows, groups)
    ensures forall i :: 0 <= i < |groups| ==>
      FirstRowOf(rows + [row], groups[i].id) == FirstRowOf(rows, groups[i].id) &&
      FirstRowOf(rows, groups[i].id).value < |rows|
  {
    forall i | 0 <= i < |groups|
      ensures FirstRowOf(rows + [row], groups[i].id) == FirstRowOf(rows, groups[i].id)
    {
      FirstRowOfAppend(rows, row, groups[i].id);
    }
  }

  /** The group a row joins grows by that row; every other group already holds all of its rows. */
  lemma ExistingHoldsItsRows(rows: seq<ZoneStock>, groups: seq<WarehouseGroup>, row: ZoneStock, i0: nat)
    requires HoldsItsRows(rows, groups) && DistinctIds(groups)
    requires i0 < |groups| && groups[i0].id == row.zone.warehouse.id
    ensures HoldsItsRows(rows + [row], groups[i0 := groups[i0].(zones := groups[i0].zones + [row])])
  {
    var groups' := groups[i0 := groups[i0].(zones := groups[i0].zones + [row])];
    forall i | 0 <= i < |groups'|
      ensures groups'[i].zones == RowsIn(rows + [row], groups'[i].id)
    {
      RowsInAppend(rows, row, groups[i].id);
      if i != i0 {
        assert groups[i].id != groups[i0].id;
      }
    }
  }

  lemma ExistingFirstRows(rows: seq<ZoneStock>, groups: seq<WarehouseGroup>, row: ZoneStock, i0: nat)
    requires NamedByFirstRow(rows, groups) && OrderedByFirstRow(rows, groups)
    requires i0 < |groups|
    ensures var groups' := groups[i0 := groups[i0].(zones := groups[i0].zones + [row])];
            NamedByFirstRow(rows + [row], groups') && OrderedByFirstRow(rows + [row], groups')
  {
    var rows' := rows + [row];
    var groups' := groups[i0 := groups[i0].(zones := groups[i0].zones + [row])];
    FirstRowsKept(rows, groups, row);
    assert forall k :: 0 <= k < |rows| ==> rows'[k] == rows[k];
    assert forall i :: 0 <= i < |groups| ==> groups'[i].id == groups[i].id && groups'[i].name == groups[i].name;
    assert NamedByFirstRow(rows', groups');
  }

  lemma ExistingCoversRows(rows: seq<ZoneStock>, groups: seq<WarehouseGroup>, row: ZoneStock, i0: nat)
    requires CoversRows(rows, groups)
    requires i0 < |groups| && groups[i0].id == row.zone.warehouse.id
    ensures CoversRows(rows + [row], groups[i0 := groups[i0].(zones := groups[i0].zones + [row])])
  {
    var rows' := rows + [row];
    var groups' := groups[i0 := groups[i0].(zones := groups[i0].zones + [row])];
    forall k | 0 <= k < |rows'|
      ensures HasGroup(groups', rows'[k].zone.warehouse.id)
    {
      if k == |rows| {
        assert groups'[i0].id == rows'[k].zone.warehouse.id;
      } else {
        assert rows'[k] == rows[k];
        var i :| 0 <= i < |groups| && groups[i].id == rows[k].zone.warehouse.id;
        assert groups'[i].id == rows'[k].zone.warehouse.id;
      }
    }
  }

  /** A row of a warehouse that already has a group joins the end of that group. */
  lemma PlaceIntoExisting(rows: seq<ZoneStock>, groups: seq<WarehouseGroup>, row: ZoneStock, i0: nat)
    requires IsGrouping(rows, groups)
    requires i0 < |groups| && groups[i0].id == row.zone.warehouse.id
    ensures IsGrouping(rows + [row], groups[i0 := groups[i0].(zones := groups[i0].zones + [row])])
  {
    ExistingHoldsItsRows(rows, groups, row, i0);
    ExistingFirstRows(rows, groups, row, i0);
    ExistingCoversRows(rows, groups, row, i0);
  }

  /** Without a group for `w`, no row so far belongs to `w`. */
  lemma UnseenWarehouse(rows: seq<ZoneStock>, groups: seq<WarehouseGroup>, w: WarehouseId)
    requires CoversRows(rows, groups)
    requires forall i :: 0 <= i < |groups| ==> groups[i].id != w
    ensures forall k :: 0 <= k < |rows| ==> rows[k].zone.warehouse.id != w
  {
    forall k | 0 <= k < |rows|
      ensures rows[k].zone.warehouse.id != w
    {
      var i :| 0 <= i < |groups| && groups[i].id == rows[k].zone.warehouse.id;
    }
  }

  lemma NewGroupHoldsItsRows(rows: seq<ZoneStock>, groups: seq<WarehouseGroup>, row: ZoneStock)
    requires HoldsItsRows(rows, groups)
    requires forall k :: 0 <= k < |rows| ==> rows[k].zone.warehouse.id != row.zone.warehouse.id
    requires forall i :: 0 <= i < |groups| ==> groups[i].id != row.zone.warehouse.id
    ensures HoldsItsRows(rows + [row], groups + [WarehouseGroup(row.zone.warehouse.id, row.zone.warehouse.name, [row])])
  {
    var w := row.zone.warehouse.id;
    var groups' := groups + [WarehouseGroup(w, row.zone.warehouse.name, [row])];
    RowsInAbsent(rows, w);
    RowsInAppend(rows, row, w);
    forall i | 0 <= i < |groups'|
      ensures groups'[i].zones == RowsIn(rows + [row], groups'[i].id)
    {
      if i < |groups| {
        RowsInAppend(rows, row, groups[i].id);
      }
    }
  }

  lemma NewGroupFirstRows(rows: seq<ZoneStock>, groups: seq<WarehouseGroup>, row: ZoneStock)
    requires NamedByFirstRow(rows, groups) && OrderedByFirstRow(rows, groups)
    requires forall k :: 0 <= k < |rows| ==> rows[k].zone.warehouse.id != row.zone.warehouse.id
    ensures var groups' := groups + [WarehouseGroup(row.zone.warehouse.id, row.zone.warehouse.name, [row])];
            NamedByFirstRow(rows + [row], groups') && OrderedByFirstRow(rows + [row], groups')
  {
    var w := row.zone.warehouse.id;
    var rows' := rows + [row];
    var groups' := groups + [WarehouseGroup(w, row.zone.warehouse.name, [row])];
    FirstRowsKept(rows, groups, row);
    FirstRowOfAppend(rows, row, w);
    assert FirstRowOf(rows', w) == Some(|rows|);
    assert rows'[|rows|] == row;
    assert forall k :: 0 <= k < |rows| ==> rows'[k] == rows[k];
    assert forall i :: 0 <= i < |groups| ==> groups'[i] == groups[i];
    assert NamedByFirstRow(rows', groups');
  }

  lemma NewGroupCoversRows(rows: seq<ZoneStock>, groups: seq<WarehouseGroup>, row: ZoneStock)
    requires CoversRows(rows, groups)
    ensures CoversRows(rows + [row], groups + [WarehouseGroup(row.zone.warehouse.id, row.zone.warehouse.name, [row])])
  {
    var rows' := rows + [row];
    var groups' := groups + [WarehouseGroup(row.zone.warehouse.id, row.zone.warehouse.name, [row])];
    forall k | 0 <= k < |rows'|
      ensures HasGroup(groups', rows'[k].zone.warehouse.id)
    {
      if k == |rows| {
        assert groups'[|groups|].id == rows'[k].zone.warehouse.id;
      } else {
        assert rows'[k] == rows[k];
        var i :| 0 <= i < |groups| && groups[i].id == rows[k].zone.warehouse.id;
        assert groups'[i].id == rows'[k].zone.warehouse.id;
      }
    }
  }

  /** A row of a warehouse not seen before opens a new group at the end. */
  lemma PlaceAsNew(rows: seq<ZoneStock>, groups: seq<WarehouseGroup>, row: ZoneStock)
    requires IsGrouping(rows, groups)
    requires forall i :: 0 <= i < |groups| ==> groups[i].id != row.zone.warehouse.id
    ensures IsGrouping(rows + [row], groups + [WarehouseGroup(row.zone.warehouse.id, row.zone.warehouse.name, [row])])
  {
    UnseenWarehouse(rows, groups, row.zone.warehouse.id);
    NewGroupHoldsItsRows(rows, groups, row);
    NewGroupFirstRows(rows, groups, row);
    NewGroupCoversRows(rows, groups, row);
  }

  /** Placing the next row turns a grouping of the prefix into a grouping of the longer sequence. */
  lemma PlaceKeepsGrouping(rows: seq<ZoneStock>, groups: seq<WarehouseGroup>, row: ZoneStock)
    requires IsGrouping(rows, groups)
    ensures IsGrouping(rows + [row], Place(groups, row))
  {
    match GroupIndex(groups, row.zone.warehouse.id)
    case Some(i0) => PlaceIntoExisting(rows, groups, row, i0);
    case None => PlaceAsNew(rows, groups, row);
  }

  /** The grouping loop over the rows, in row order. */
  function GroupByWarehouse(rows: seq<ZoneStock>): (groups: seq<WarehouseGroup>)
    ensures IsGrouping(rows, groups)
  {
    if |rows| == 0 then []
    else
      var prefix := rows[..|rows| - 1];
      var last := rows[|rows| - 1];
      assert prefix + [last] == rows;
      PlaceKeepsGrouping(prefix, GroupByWarehouse(prefix), last);
      Place(GroupByWarehouse(prefix), last)
  }

  /** The endpoint: the product's rows with stock > 0, grouped by warehouse. */
  function ProductWarehouses(ledger: Ledger, zones: seq<Zone>, p: ProductId): (groups: seq<WarehouseGroup>)
    ensures IsGrouping(StockInfo(ledger, zones, p), groups)
    ensures forall i, k :: 0 <= i < |groups| && 0 <= k < |groups[i].zones| ==>
      groups[i].zones[k].quantity > 0 && groups[i].zones[k].zone.warehouse.id == groups[i].id
  {
    GroupByWarehouse(StockInfo(ledger, zones, p))
  }
}
