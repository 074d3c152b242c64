/** A battery behind an inverter, dispatched greedily one step at a time. */
module BatteryModel {
  import opened Units

  /** Battery state; `soc` is the state of charge as a fraction of `capacity` (kWh). */
  datatype Battery = Battery(capacity: real, maxPower: real, efficiency: real, soc: real)

  /** Result of one step: the battery afterwards and the residual energy left for the grid (kWh). */
  datatype Exchange = Exchange(battery: Battery, residual: real)

  /** Catalog ranges: non-negative capacity and inverter power, efficiency and state of charge in [0, 1]. */
  predicate Valid(b: Battery)
  {
    0.0 <= b.capacity && 0.0 <= b.maxPower && 0.0 <= b.efficiency <= 1.0 && 0.0 <= b.soc <= 1.0
  }

  /** Energy stored in the battery (kWh). */
  function Stored(b: Battery): real
  {
    b.soc * b.capacity
  }

  /** Most energy the inverter passes in one step. */
  function InverterLimit(b: Battery): real
  {
    b.maxPower * TimeStep
  }

  /** Part of the offered energy that the inverter lets through to the cells. */
  function Admitted(b: Battery, e: real): (a: real)
    ensures 0.0 <= b.maxPower ==> -InverterLimit(b) <= a <= InverterLimit(b)
    ensures -InverterLimit(b) <= e <= InverterLimit(b) ==> a == e
  {
    var emax := InverterLimit(b);
    if e > emax then emax else if e < -emax then -emax else e
  }

  /** Part of the offered energy that bypasses the cells because of the inverter limit.
      On the deficit side `battery_sim` takes this to be `e - emax`, not `e + emax`. */
  function Bypass(b: Battery, e: real): (r: real)
    ensures -InverterLimit(b) <= e <= InverterLimit(b) ==> r == 0.0
    ensures 0.0 <= b.maxPower ==> r + Admitted(b, e) == e - Skew(b, e)
    ensures 0.0 < b.maxPower && e < -InverterLimit(b) ==> r < e
  {
    var emax := InverterLimit(b);
    if e > emax then e - emax else if e < -emax then e - emax else 0.0
  }

  /** One greedy dispatch step for an offered energy `e` (positive = surplus, negative = deficit). */
  function Step(b: Battery, e: real): (x: Exchange)
    ensures x.battery == b.(soc := x.battery.soc)
    ensures b.capacity >= 0.0 && 0.0 <= b.soc <= 1.0 ==> 0.0 <= x.battery.soc <= 1.0
    ensures b.capacity == 0.0 && b.maxPower == 0.0 ==> x == Exchange(b, e)
  {
    var total := b.soc * b.capacity + Admitted(b, e);
    if total > b.capacity then
      Exchange(b.(soc := 1.0), Bypass(b, e) + b.efficiency * (total - b.capacity))
    else if total < 0.0 then
      Exchange(b.(soc := 0.0), Bypass(b, e) + total)
    else if b.capacity != 0.0 then
      Exchange(b.(soc := total / b.capacity), Bypass(b, e))
    else
      Exchange(b, Bypass(b, e))
  }

  /** The residual of a step, by the three outcomes for the candidate stored energy. */
  lemma ResidualCases(b: Battery, e: real)
    ensures var total := Stored(b) + Admitted(b, e);
      Step(b, e).residual == Bypass(b, e) +
        (if total > b.capacity then b.efficiency * (total - b.capacity) else if total < 0.0 then total else 0.0)
  {
  }

  /** Energy offered to the cells beyond their capacity in this step. */
  function Spill(b: Battery, e: real): real
  {
    var total := Stored(b) + Admitted(b, e);
    if total > b.capacity then total - b.capacity else 0.0
  }

  /** Energy drawn beyond the offered deficit in this step: twice the inverter limit when the deficit is clamped. */
  function Skew(b: Battery, e: real): real
  {
    if e < -InverterLimit(b) then 2.0 * InverterLimit(b) else 0.0
  }

  /** Energy balance of one step: offered energy equals residual plus change in stored energy plus charge losses on the
      spilled part, except for the extra draw of a clamped deficit. */
  lemma Conservation(b: Battery, e: real)
    requires 0.0 <= b.maxPower
    ensures var x := Step(b, e);
      x.residual + (Stored(x.battery) - Stored(b)) + (1.0 - b.efficiency) * Spill(b, e) == e - Skew(b, e)
  {
    var x := Step(b, e);
    var total := Stored(b) + Admitted(b, e);
    assert Bypass(b, e) + Admitted(b, e) == e - Skew(b, e);
    if total > b.capacity {
      var s := total - b.capacity;
      assert Spill(b, e) == s;
      assert Stored(x.battery) == b.capacity;
      assert x.residual == Bypass(b, e) + b.efficiency * s;
      assert b.efficiency * s + (1.0 - b.efficiency) * s == s;
    } else if total < 0.0 {
      assert Stored(x.battery) == 0.0;
      assert x.residual == Bypass(b, e) + total;
    } else if b.capacity != 0.0 {
      assert Stored(x.battery) == (total / b.capacity) * b.capacity == total;
    }
  }

  /** Away from a clamped deficit the step never creates energy: residual plus stored change is at most the offer,
      with equality when the battery is lossless or does not spill. */
  lemma NoEnergyCreated(b: Battery, e: real)
    requires 0.0 <= b.maxPower && 0.0 <= b.efficiency <= 1.0
    requires e >= -InverterLimit(b)
    ensures var x := Step(b, e); x.residual + (Stored(x.battery) - Stored(b)) <= e
    ensures var x := Step(b, e);
      b.efficiency == 1.0 || Spill(b, e) == 0.0 ==> x.residual + (Stored(x.battery) - Stored(b)) == e
  {
    Conservation(b, e);
    assert Skew(b, e) == 0.0;
    NonNegativeProduct(1.0 - b.efficiency, Spill(b, e));
  }

  /** A surplus beyond the inverter limit: the excess goes straight to the residual, the rest is dispatched as if
      exactly the limit had been offered, so the battery gains at most the limit. */
  lemma ChargeClamp(b: Battery, e: real)
    requires 0.0 <= b.maxPower
    requires e > InverterLimit(b)
    ensures var lim := Step(b, InverterLimit(b));
      Step(b, e) == Exchange(lim.battery, (e - InverterLimit(b)) + lim.residual)
    ensures Valid(b) ==> Stored(Step(b, e).battery) - Stored(b) <= InverterLimit(b)
  {
    var emax := InverterLimit(b);
    assert Admitted(b, e) == emax == Admitted(b, emax);
    assert Bypass(b, e) == e - emax && Bypass(b, emax) == 0.0;
    if Valid(b) {
      StoredWithinCapacity(b);
      var total := Stored(b) + emax;
      var x := Step(b, e);
      if total > b.capacity {
        assert Stored(x.battery) == 1.0 * b.capacity;
      } else if b.capacity != 0.0 {
        assert Stored(x.battery) == (total / b.capacity) * b.capacity == total;
      }
    }
  }

  /** A deficit beyond the inverter limit: the step dispatches the negated limit, and the residual gains `e - limit`
      rather than `e + limit`. */
  lemma DeficitClamp(b: Battery, e: real)
    requires 0.0 <= b.maxPower
    requires e < -InverterLimit(b)
    ensures var lim := Step(b, -InverterLimit(b));
      Step(b, e) == Exchange(lim.battery, (e - InverterLimit(b)) + lim.residual)
  {
  }

  /** With a positive inverter limit, a clamped deficit draws twice the limit more from the grid than the deficit
      and the battery account for. */
  lemma DeficitOverdraw(b: Battery, e: real)
    requires Valid(b) && 0.0 < b.maxPower
    requires e < -InverterLimit(b)
    ensures var x := Step(b, e);
      x.residual + (Stored(x.battery) - Stored(b)) == e - 2.0 * InverterLimit(b) < e
  {
    StoredWithinCapacity(b);
    assert Spill(b, e) == 0.0;
    Conservation(b, e);
  }

  /** Within the inverter limit exactly one of three things happens, decided by the candidate stored energy. */
  lemma Saturation(b: Battery, e: real)
    requires 0.0 <= b.capacity
    requires -InverterLimit(b) <= e <= InverterLimit(b)
    ensures var t, x := Stored(b) + e, Step(b, e);
      && (0.0 <= t <= b.capacity ==> x.residual == 0.0 && Stored(x.battery) == Stored(b) + e)
      && (t > b.capacity ==> x.battery.soc == 1.0 && x.residual == b.efficiency * (t - b.capacity))
      && (t < 0.0 ==> x.battery.soc == 0.0 && x.residual == t)
  {
    var t := Stored(b) + e;
    assert Admitted(b, e) == e && Bypass(b, e) == 0.0;
    if 0.0 <= t <= b.capacity && b.capacity != 0.0 {
      assert Stored(Step(b, e).battery) == (t / b.capacity) * b.capacity == t;
    }
  }

  /** A surplus never turns into an import, and what reaches the grid is at most the surplus. */
  lemma SurplusResidual(b: Battery, e: real)
    requires Valid(b)
    requires e >= 0.0
    ensures 0.0 <= Step(b, e).residual <= e
  {
    StoredWithinCapacity(b);
    ResidualCases(b, e);
    var st, a := Stored(b), Admitted(b, e);
    var s := st + a - b.capacity;
    SurplusArithmetic(Bypass(b, e), a, st, b.capacity, b.efficiency, s, b.efficiency * s, Step(b, e).residual);
  }

  /** The arithmetic behind SurplusResidual, over plain reals: `s` is the overflow and `q` its efficiency-scaled part. */
  lemma SurplusArithmetic(p: real, a: real, st: real, cap: real, eff: real, s: real, q: real, r: real)
    requires 0.0 <= p && 0.0 <= a && 0.0 <= st <= cap && 0.0 <= eff <= 1.0
    requires s == st + a - cap && q == eff * s
    requires r == p + (if s > 0.0 then q else if st + a < 0.0 then st + a else 0.0)
    ensures 0.0 <= r <= p + a
  {
    if s > 0.0 {
      ScaleDown(eff, s);
    }
  }

  /** A deficit never turns into an export. */
  lemma DeficitResidual(b: Battery, e: real)
    requires Valid(b)
    requires e <= 0.0
    ensures Step(b, e).residual <= 0.0
    ensures e >= -InverterLimit(b) ==> e <= Step(b, e).residual
  {
    StoredWithinCapacity(b);
  }

  /** With no capacity and no inverter ("no battery") every offer passes through unchanged. */
  lemma NoBatteryPassThrough(b: Battery, e: real)
    requires b.capacity == 0.0 && b.maxPower == 0.0
    ensures Step(b, e).residual == e
    ensures Step(b, e).battery == b
  {
  }

  /** A zero-capacity battery with a working inverter is not a pass-through: a surplus within the limit fills the empty
      battery to a state of charge of 1 and comes back derated by the efficiency. */
  lemma ZeroCapacityCharging(b: Battery, e: real)
    requires b.capacity == 0.0
    requires 0.0 < e <= InverterLimit(b)
    ensures Step(b, e) == Exchange(b.(soc := 1.0), b.efficiency * e)
  {
  }

  /** Capacity 100, inverter 2, efficiency 0.9, empty: offering 10 charges 2 and returns 8. */
  lemma InverterClampExample()
    ensures Step(Battery(100.0, 2.0, 0.9, 0.0), 10.0) == Exchange(Battery(100.0, 2.0, 0.9, 0.02), 8.0)
  {
  }

  /** Capacity 13.5, inverter 5, efficiency 0.9, empty: a 10 kWh deficit leaves a residual of -20. */
  lemma DeficitClampExample()
    ensures Step(Battery(13.5, 5.0, 0.9, 0.0), -10.0) == Exchange(Battery(13.5, 5.0, 0.9, 0.0), -20.0)
  {
  }

  /** A valid battery holds between nothing and its capacity. */
  lemma StoredWithinCapacity(b: Battery)
    requires Valid(b)
    ensures 0.0 <= Stored(b) <= b.capacity
  {
    ScaleDown(b.soc, b.capacity);
  }

  lemma NonNegativeProduct(a: real, c: real)
    requires 0.0 <= a && 0.0 <= c
    ensures 0.0 <= a * c
  {
  }
}
