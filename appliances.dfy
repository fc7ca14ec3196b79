/** The appliance table of the calculator page: the catalog of typical
    wattages, the numbers each row's inputs hold, and the daily energy a row
    and the whole table stand for. */
module Appliances {
  import opened Common

  /** `APPLIANCES`: typical wattage of appliances common in Nigerian homes. */
  const Catalog: map<string, int> := map[
    "LED Lights" := 10,
    "Ceiling Fan" := 75,
    "Standing Fan" := 50,
    "Smartphone Charger" := 10,
    "Laptop" := 65,
    "Desktop Computer" := 150,
    "TV (32-inch LED)" := 50,
    "TV (43-inch LED)" := 100,
    "TV (55-inch LED)" := 150,
    "Small Refrigerator" := 150,
    "Large Refrigerator" := 250,
    "Chest Freezer" := 300,
    "Air Conditioner (1HP)" := 750,
    "Air Conditioner (1.5HP)" := 1100,
    "Air Conditioner (2HP)" := 1500,
    "Electric Iron" := 1000,
    "Microwave" := 800,
    "Electric Kettle" := 1500,
    "Water Dispenser" := 100,
    "Security Lights" := 30,
    "CCTV System" := 50,
    "Small Water Pump" := 750,
    "Large Water Pump" := 1500
  ]

  /** `APPLIANCES[choice] || 0`: the catalog wattage, or 0 for the blank
      option or a name the catalog does not list. */
  function CatalogWatts(name: string): (w: int)
    ensures w >= 0
    ensures w > 0 <==> name in Catalog
    ensures name in Catalog ==> w == Catalog[name]
  {
    if name in Catalog then Catalog[name] else 0
  }

  /** One `.appliance-row`: the chosen option and, for each numeric input,
      the number `parseFloat` reads from it (None where it reads NaN, as for
      a blank input). */
  datatype ApplianceRow = ApplianceRow(
    appliance: string,
    watts: Option<real>,
    quantity: Option<real>,
    hours: Option<real>)

  /** JavaScript's `parseFloat(v) || fallback`: NaN and 0 are falsy. */
  function OrElse(x: Option<real>, fallback: real): real {
    if x.Some? && x.value != 0.0 then x.value else fallback
  }

  /** The kWh a row uses per day: watts times hours times quantity over 1000,
      blank watts or hours reading as 0 and a blank or zero quantity as 1. */
  function DailyKwh(r: ApplianceRow): real {
    var watts := OrElse(r.watts, 0.0);
    var hours := OrElse(r.hours, 0.0);
    var quantity := OrElse(r.quantity, 1.0);
    watts * hours * quantity / 1000.0
  }

  /** Σ DailyKwh over the rows. */
  function TotalDailyKwh(rows: seq<ApplianceRow>): real {
    if rows == [] then 0.0 else DailyKwh(rows[0]) + TotalDailyKwh(rows[1..])
  }

  /** The readings the neutral defaults give: a blank watts or hours input
      makes the row use nothing, and a blank or zero quantity counts as one. */
  lemma DailyKwhDefaults(r: ApplianceRow)
    ensures r.watts.None? || r.hours.None? ==> DailyKwh(r) == 0.0
    ensures r.quantity.None? || r.quantity == Some(0.0) ==>
      DailyKwh(r) == DailyKwh(r.(quantity := Some(1.0)))
    ensures r.watts.Some? && r.hours.Some? && r.quantity.Some? && r.quantity.value != 0.0 ==>
      DailyKwh(r) == r.watts.value * r.hours.value * r.quantity.value / 1000.0
  {
  }

  /** Accumulating row by row, as the page does, gives the same total. */
  lemma {:induction false} TotalAppend(rows: seq<ApplianceRow>, r: ApplianceRow)
    ensures TotalDailyKwh(rows + [r]) == TotalDailyKwh(rows) + DailyKwh(r)
  {
    if rows == [] {
      assert rows + [r] == [r];
    } else {
      assert (rows + [r])[1..] == rows[1..] + [r];
      TotalAppend(rows[1..], r);
    }
  }

  /** Changing one row moves the total by exactly that row's change. */
  lemma {:induction false} TotalUpdate(rows: seq<ApplianceRow>, i: nat, r: ApplianceRow)
    requires i < |rows|
    ensures TotalDailyKwh(rows[i := r]) == TotalDailyKwh(rows) - DailyKwh(rows[i]) + DailyKwh(r)
  {
    if i > 0 {
      assert rows[i := r][1..] == rows[1..][i - 1 := r];
      TotalUpdate(rows[1..], i - 1, r);
    } else {
      assert rows[i := r][1..] == rows[1..];
    }
  }

  /** With no negative inputs the total is never negative. */
  lemma {:induction false} TotalNonNegative(rows: seq<ApplianceRow>)
    requires forall i :: 0 <= i < |rows| ==> NonNegativeRow(rows[i])
    ensures TotalDailyKwh(rows) >= 0.0
  {
    if rows != [] {
      var r := rows[0];
      var w, h, q := OrElse(r.watts, 0.0), OrElse(r.hours, 0.0), OrElse(r.quantity, 1.0);
      assert w * h >= 0.0;
      assert w * h * q >= 0.0;
      TotalNonNegative(rows[1..]);
    }
  }

  predicate NonNegativeRow(r: ApplianceRow) {
    && (r.watts.Some? ==> r.watts.value >= 0.0)
    && (r.hours.Some? ==> r.hours.value >= 0.0)
    && (r.quantity.Some? ==> r.quantity.value >= 0.0)
  }

  /** The row `addApplianceRow` creates: no appliance chosen, no wattage,
      quantity 1 and no hours. */
  function NewRow(): (r: ApplianceRow)
    ensures r.appliance == "" && r.watts.None? && r.hours.None? && r.quantity == Some(1.0)
    ensures DailyKwh(r) == 0.0
  {
    ApplianceRow("", None, Some(1.0), None)
  }

  /** Adding a fresh row leaves the total where it was. */
  lemma NewRowKeepsTotal(rows: seq<ApplianceRow>)
    ensures TotalDailyKwh(rows + [NewRow()]) == TotalDailyKwh(rows)
  {
    TotalAppend(rows, NewRow());
  }

  /** Choosing an option writes its catalog wattage into the row's watts
      input and touches nothing else. */
  function ChooseAppliance(r: ApplianceRow, name: string): (r': ApplianceRow)
    ensures r'.appliance == name && r'.watts == Some(CatalogWatts(name) as real)
    ensures r'.quantity == r.quantity && r'.hours == r.hours
    ensures DailyKwh(r') == CatalogWatts(name) as real * OrElse(r.hours, 0.0) * OrElse(r.quantity, 1.0) / 1000.0
  {
    r.(appliance := name, watts := Some(CatalogWatts(name) as real))
  }

  /** One small refrigerator running 8 hours a day uses 1.2 kWh. */
  lemma SmallRefrigeratorExample()
    ensures DailyKwh(ChooseAppliance(ApplianceRow("", None, Some(1.0), Some(8.0)), "Small Refrigerator")) == 1.2
  {
  }
}
