/** One simulated hour: panel output, battery dispatch, grid energy, tariff update and month-end settlement. */
module HourlyDispatch {
  import opened Calendar
  import opened Outcomes
  import PanelModel
  import BatteryModel
  import opened TariffEngine

  /** Weather and load for one hour: irradiance (kW/m^2), ambient temperature (C), household load (kWh). */
  datatype Sample = Sample(time: Timestamp, irradiance: real, ambient: real, load: real)

  /** The state of one equipment combination. */
  datatype Rig = Rig(panel: PanelModel.SolarPanel, battery: BatteryModel.Battery, plan: Plan, acc: Accumulator)

  /** The rig after the hour, the grid energy (positive = import), and the bill when the hour closes a month. */
  datatype HourResult = HourResult(rig: Rig, gridEnergy: real, bill: Option<real>)

  predicate Valid(r: Rig)
  {
    PanelModel.Valid(r.panel) && BatteryModel.Valid(r.battery) && AllNonNegative(r.acc.dailyPeaks)
  }

  /** Energy exchanged with the grid: the negated battery residual of generation minus load. */
  function GridEnergy(generation: real, load: real, b: BatteryModel.Battery): (g: real)
    ensures b.capacity == 0.0 && b.maxPower == 0.0 ==> g == load - generation
  {
    -BatteryModel.Step(b, generation - load).residual
  }

  /** One hour of the simulation for calendar year `year`. */
  function SimulateHour(year: int, rig: Rig, s: Sample): (r: Result<HourResult, TariffError>)
    ensures r.Err? <==> rig.plan == E15 && IsOnPeak(s.time) && |rig.acc.dailyPeaks| == 0
    ensures r.Ok? ==> r.value.rig.plan == rig.plan
    ensures r.Ok? ==> (r.value.bill.Some? <==> IsBillingBoundary(year, s.time))
    ensures r.Ok? && r.value.bill.Some? ==> r.value.bill.value >= ServiceCharge && r.value.rig.acc == Reset()
    ensures r.Ok? ==> r.value.rig.panel == PanelModel.Aged(rig.panel)
  {
    var g := PanelModel.Step(rig.panel, s.irradiance, s.ambient);
    var x := BatteryModel.Step(rig.battery, g.energy - s.load);
    var grid := -x.residual;
    match Usage(rig.plan, rig.acc, s.time, grid)
    case Err(e) => Err(e)
    case Ok(acc) =>
      if IsBillingBoundary(year, s.time) then
        var st := Settle(rig.plan, acc, s.time);
        Ok(HourResult(Rig(g.panel, x.battery, rig.plan, st.acc), grid, Some(st.bill)))
      else
        Ok(HourResult(Rig(g.panel, x.battery, rig.plan, acc), grid, None))
  }

  /** Where the hour's energy goes: the grid energy is charged to the plan, the battery is the dispatched one, and a
      month-end bill settles the accumulator that already includes this hour. */
  lemma HourRouting(year: int, rig: Rig, s: Sample)
    ensures var gen := PanelModel.Step(rig.panel, s.irradiance, s.ambient).energy;
      var grid := GridEnergy(gen, s.load, rig.battery);
      var u := Usage(rig.plan, rig.acc, s.time, grid);
      var r := SimulateHour(year, rig, s);
      && (r.Ok? <==> u.Ok?)
      && (r.Ok? ==>
        && r.value.gridEnergy == grid
        && r.value.rig.battery == BatteryModel.Step(rig.battery, gen - s.load).battery
        && (!IsBillingBoundary(year, s.time) ==> r.value.rig.acc == u.value && r.value.bill == None)
        && (IsBillingBoundary(year, s.time) ==>
          var st := Settle(rig.plan, u.value, s.time);
          r.value.bill == Some(st.bill) && r.value.rig.acc == st.acc))
  {
  }

  /** Off the month boundary the hour adds exactly its table charge to the usage cost: E13 at the import price for
      an import and at the export price otherwise, E15 at its time-of-use price either way. */
  lemma HourCharge(year: int, rig: Rig, s: Sample)
    requires SimulateHour(year, rig, s).Ok?
    requires !IsBillingBoundary(year, s.time)
    ensures var r := SimulateHour(year, rig, s).value;
      var grid, before, after := r.gridEnergy, rig.acc.usageCost, r.rig.acc.usageCost;
      && (rig.plan == E13 ==> after == before + E13Charge(s.time, grid))
      && (rig.plan == E15 ==> after == before + grid * E15Energy.For(s.time))
  {
    HourRouting(year, rig, s);
  }

  /** At the month boundary an E13 hour bills the service charge plus the positive part of the usage cost including
      this hour's charge, and starts the next month from a reset accumulator. */
  lemma HourE13Bill(year: int, rig: Rig, s: Sample)
    requires rig.plan == E13
    requires IsBillingBoundary(year, s.time)
    ensures var r := SimulateHour(year, rig, s);
      var grid := r.value.gridEnergy;
      && r.Ok?
      && r.value.bill == Some(ServiceCharge + PositivePart(rig.acc.usageCost + E13Charge(s.time, grid)))
      && r.value.rig.acc == Reset()
  {
    HourRouting(year, rig, s);
  }

  /** The hour's grid energy is the battery's view of the panel's output against the load. */
  lemma HourGridEnergy(year: int, rig: Rig, s: Sample)
    requires SimulateHour(year, rig, s).Ok?
    ensures SimulateHour(year, rig, s).value.gridEnergy ==
      GridEnergy(PanelModel.Step(rig.panel, s.irradiance, s.ambient).energy, s.load, rig.battery)
  {
  }

  /** Without a battery the grid covers exactly the load not met by the panel. */
  lemma NoBatteryGrid(generation: real, load: real, b: BatteryModel.Battery)
    requires b.capacity == 0.0 && b.maxPower == 0.0
    ensures GridEnergy(generation, load, b) == load - generation
  {
    BatteryModel.NoBatteryPassThrough(b, generation - load);
  }

  /** A surplus hour never imports and exports at most the surplus; a deficit hour never exports. */
  lemma GridSign(generation: real, load: real, b: BatteryModel.Battery)
    requires BatteryModel.Valid(b)
    ensures generation >= load ==> load - generation <= GridEnergy(generation, load, b) <= 0.0
    ensures generation <= load ==> GridEnergy(generation, load, b) >= 0.0
  {
    if generation >= load {
      BatteryModel.SurplusResidual(b, generation - load);
    } else {
      BatteryModel.DeficitResidual(b, generation - load);
    }
  }

  /** A valid rig stays valid through an hour: panel and battery in range, daily peaks non-negative. */
  lemma HourKeepsValid(year: int, rig: Rig, s: Sample)
    requires Valid(rig)
    requires SimulateHour(year, rig, s).Ok?
    ensures Valid(SimulateHour(year, rig, s).value.rig)
  {
    PanelModel.AgedBounds(rig.panel);
  }

  /** A night hour with no battery imports exactly the load. */
  lemma NightWithoutBattery(year: int, rig: Rig, s: Sample)
    requires s.irradiance == 0.0
    requires rig.battery.capacity == 0.0 && rig.battery.maxPower == 0.0
    requires SimulateHour(year, rig, s).Ok?
    ensures SimulateHour(year, rig, s).value.gridEnergy == s.load
  {
    NoBatteryGrid(0.0, s.load, rig.battery);
  }
}
