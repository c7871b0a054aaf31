/** Choice of the point-of-sale zone whose stock a checkout draws on. */
module SalesZones {
  import opened Wrappers
  import opened Seqs
  import opened Text
  import opened Inventory

  /** The name fragment that marks a sales zone ("Ventas", "Zona de venta", ...). */
  const SalesToken: string := "venta"

  /** An active zone whose name contains the sales token, ignoring case. */
  predicate IsSalesNamed(z: Zone) {
    z.active && ContainsIgnoreCase(z.name, SalesToken)
  }

  predicate IsActive(z: Zone) {
    z.active
  }

  /**
   * Position of the sales zone in the zone table (primary-key order): the
   * first active zone named like a sales zone, else the first active zone,
   * else none.
   */
  function SalesZoneIndex(zones: seq<Zone>): (r: Option<nat>)
    ensures r.Some? ==> r.value < |zones| && zones[r.value].active
    ensures r.None? <==> forall j :: 0 <= j < |zones| ==> !zones[j].active
    ensures (exists j :: 0 <= j < |zones| && IsSalesNamed(zones[j])) ==>
      r.Some? && IsSalesNamed(zones[r.value]) && forall j :: 0 <= j < r.value ==> !IsSalesNamed(zones[j])
    ensures (forall j :: 0 <= j < |zones| ==> !IsSalesNamed(zones[j])) && r.Some? ==>
      forall j :: 0 <= j < r.value ==> !zones[j].active
  {
    match FirstWhere(zones, IsSalesNamed)
    case Some(i) => Some(i)
    case None => FirstWhere(zones, IsActive)
  }

  /** `get_sales_zone`: the zone itself, or None when no zone is active. */
  function SalesZone(zones: seq<Zone>): (r: Option<Zone>)
    ensures r.Some? ==> r.value in zones && r.value.active
    ensures r.None? <==> forall j :: 0 <= j < |zones| ==> !zones[j].active
  {
    match SalesZoneIndex(zones)
    case Some(i) => Some(zones[i])
    case None => None
  }

  /** A zone literally called "Zona Ventas" wins over an earlier active zone without the token. */
  lemma PrefersNamedZone()
    ensures var w := Warehouse(1, "Central");
            SalesZone([Zone(1, "Bodega", w, true), Zone(2, "Zona VENTAS", w, true)]) == Some(Zone(2, "Zona VENTAS", w, true))
  {
    var w := Warehouse(1, "Central");
    var zones := [Zone(1, "Bodega", w, true), Zone(2, "Zona VENTAS", w, true)];
    assert Lower(SalesToken) == "venta";
    assert Lower(zones[0].name) == "bodega";
    assert "bodega"[0..5][0] != "venta"[0] && "bodega"[1..6][0] != "venta"[0];
    assert !IsSalesNamed(zones[0]);
    assert OccursAt(Lower(SalesToken), Lower(zones[1].name), 5);
  }
}
