/** One solar panel: hourly energy output at a stubbed cell temperature, and hourly ageing. */
module PanelModel {
  import opened Units

  /** Irradiance at standard test conditions (kW/m^2). */
  const IrrStc: real := 1.0
  /** Cell temperature at standard test conditions (degrees C). */
  const TempStc: real := 25.0
  /** The cell temperature every hour is computed at: the thermal model is a constant. */
  const StubCellTemp: real := 40.0
  /** Hours in a (non-leap) year: the annual degradation is spread over these. */
  const HoursPerYear: real := 24.0 * 365.0

  /** Panel state; `power` is the current rated power (kW), which ages every hour. */
  datatype SolarPanel = SolarPanel(power: real, tcp: real, degradation: real, nmot: real, efficiency: real)

  /** Result of one hour: the aged panel and the energy it produced (kWh). */
  datatype Generation = Generation(panel: SolarPanel, energy: real)

  /** The ranges the hardware catalog keeps to: non-negative power, and 0 <= degradation <= 8760, which keeps the
      hourly ageing factor `1 - degradation/8760` in [0, 1]. */
  predicate Valid(p: SolarPanel)
  {
    0.0 <= p.power && 0.0 <= p.degradation <= HoursPerYear
  }

  /** Cell temperature for an hour: the thermal model is stubbed out, so neither ambient temperature nor irradiance
      has any effect. */
  function CellTemperature(p: SolarPanel, irr: real, ambient: real): (c: real)
    ensures c == StubCellTemp
  {
    StubCellTemp
  }

  /** Factor applied to the rated power at the end of every hour. */
  function HourlyAgeing(p: SolarPanel): real
  {
    1.0 - p.degradation / HoursPerYear
  }

  /** The panel after one hour of degradation: only the rated power changes. */
  function Aged(p: SolarPanel): (q: SolarPanel)
    ensures q == p.(power := q.power)
  {
    p.(power := p.power * HourlyAgeing(p))
  }

  /** One hour of ageing keeps a valid panel valid and never raises its power; it strictly lowers a positive power
      when the degradation rate is positive, and keeps it positive while the rate is below one power per hour. */
  lemma AgedBounds(p: SolarPanel)
    ensures Aged(p).power == p.power * HourlyAgeing(p)
    ensures Valid(p) ==> Valid(Aged(p)) && Aged(p).power <= p.power
    ensures 0.0 < p.power && 0.0 < p.degradation <= HoursPerYear ==> Aged(p).power < p.power
    ensures 0.0 < p.power && p.degradation < HoursPerYear ==> 0.0 < Aged(p).power
    ensures p.degradation == 0.0 ==> Aged(p) == p
  {
    var f := HourlyAgeing(p);
    if 0.0 <= p.power && 0.0 <= p.degradation <= HoursPerYear {
      ScaleDown(f, p.power);
    }
    if 0.0 < p.power && 0.0 < p.degradation {
      var loss := p.degradation / HoursPerYear;
      assert p.power * f == p.power - p.power * loss;
      assert 0.0 < p.power * loss;
    }
    if 0.0 < p.power && p.degradation < HoursPerYear {
      assert 0.0 < f;
      assert 0.0 < f * p.power;
    }
  }

  /** Energy a panel of rated power `power` produces in one step at the given irradiance and cell temperature. */
  function RatedEnergy(p: SolarPanel, power: real, irr: real, cellTemp: real): real
  {
    power * p.efficiency * irr / IrrStc * (1.0 + p.tcp * (cellTemp - TempStc)) * TimeStep
  }

  /** One hour of the panel: the energy is computed with the power it had before the hour, then the panel ages. */
  function Step(p: SolarPanel, irr: real, ambient: real): (g: Generation)
    ensures g.panel == Aged(p)
    ensures g.energy == RatedEnergy(p, p.power, irr, StubCellTemp)
    ensures irr == 0.0 || p.power == 0.0 ==> g.energy == 0.0
  {
    Generation(Aged(p), RatedEnergy(p, p.power, irr, CellTemperature(p, irr, ambient)))
  }

  /** The hour's result does not depend on the ambient temperature. */
  lemma AmbientIgnored(p: SolarPanel, irr: real, a1: real, a2: real)
    ensures Step(p, irr, a1) == Step(p, irr, a2)
  {
  }

  /** The hour's energy is proportional to the irradiance. */
  lemma EnergyProportionalToIrradiance(p: SolarPanel, irr: real, k: real, ambient: real)
    ensures Step(p, k * irr, ambient).energy == k * Step(p, irr, ambient).energy
  {
  }

  /** Produced energy is non-negative when irradiance is and the temperature derating keeps a positive factor. */
  lemma EnergyNonNegative(p: SolarPanel, irr: real, ambient: real)
    requires 0.0 <= p.power && 0.0 <= p.efficiency && 0.0 <= irr
    requires 0.0 <= 1.0 + p.tcp * (StubCellTemp - TempStc)
    ensures Step(p, irr, ambient).energy >= 0.0
  {
    var d := 1.0 + p.tcp * (StubCellTemp - TempStc);
    assert p.power * p.efficiency >= 0.0;
    assert p.power * p.efficiency * irr >= 0.0;
    assert p.power * p.efficiency * irr * d >= 0.0;
  }

  /** Ageing shows up in the following hour: the same irradiance yields the energy scaled by the ageing factor. */
  lemma NextHourAged(p: SolarPanel, irr: real, a1: real, a2: real)
    ensures Step(Step(p, irr, a1).panel, irr, a2).energy == HourlyAgeing(p) * Step(p, irr, a1).energy
  {
  }

  /** The panel after `hours` simulated hours. */
  function Age(p: SolarPanel, hours: nat): SolarPanel
  {
    if hours == 0 then p else Aged(Age(p, hours - 1))
  }

  function Pow(x: real, n: nat): real
  {
    if n == 0 then 1.0 else x * Pow(x, n - 1)
  }

  /** `x` scaled by `f` once per hour, `n` times. */
  function Decay(x: real, f: real, n: nat): real
  {
    if n == 0 then x else Decay(x, f, n - 1) * f
  }

  lemma {:induction false} DecayIsPow(x: real, f: real, n: nat)
    ensures Decay(x, f, n) == x * Pow(f, n)
  {
    if n > 0 {
      DecayIsPow(x, f, n - 1);
      var m := Pow(f, n - 1);
      assert Decay(x, f, n) == (x * m) * f;
      assert Pow(f, n) == f * m;
      assert (x * m) * f == x * (f * m);
    }
  }

  /** After n hours only the rated power has changed, and it has been scaled by the hourly ageing factor n times. */
  lemma {:induction false} AgeIsDecay(p: SolarPanel, hours: nat)
    ensures Age(p, hours) == p.(power := Decay(p.power, HourlyAgeing(p), hours))
  {
    if hours > 0 {
      AgeIsDecay(p, hours - 1);
    }
  }

  /** After n hours the rated power is the initial power times the hourly ageing factor to the n-th power. */
  lemma AgeClosedForm(p: SolarPanel, hours: nat)
    ensures Age(p, hours) == p.(power := p.power * Pow(HourlyAgeing(p), hours))
  {
    AgeIsDecay(p, hours);
    DecayIsPow(p.power, HourlyAgeing(p), hours);
  }

  /** Degradation is monotone: power never increases from one hour to a later one and never becomes negative. */
  lemma {:induction false} AgeMonotone(p: SolarPanel, earlier: nat, later: nat)
    requires Valid(p)
    requires earlier <= later
    ensures Valid(Age(p, later))
    ensures Age(p, later).power <= Age(p, earlier).power
    decreases later
  {
    if earlier < later {
      AgeMonotone(p, earlier, later - 1);
      AgedBounds(Age(p, later - 1));
    } else if later > 0 {
      AgeMonotone(p, 0, later - 1);
      AgedBounds(Age(p, later - 1));
    }
  }

  /** With positive power and degradation, every hour strictly lowers the rated power, which stays positive. */
  lemma {:induction false} AgeStrictlyDecreasing(p: SolarPanel, earlier: nat, later: nat)
    requires 0.0 < p.power && 0.0 < p.degradation < HoursPerYear
    requires earlier < later
    ensures 0.0 < Age(p, later).power < Age(p, earlier).power
    decreases later
  {
    var q := Age(p, later - 1);
    AgeStaysPositive(p, later - 1);
    AgedBounds(q);
    if earlier < later - 1 {
      AgeStrictlyDecreasing(p, earlier, later - 1);
    }
  }

  /** Helper of AgeStrictlyDecreasing: with 0 < degradation < 8760 ageing keeps a positive power positive and
      changes nothing else. */
  lemma {:induction false} AgeStaysPositive(p: SolarPanel, hours: nat)
    requires 0.0 < p.power && 0.0 < p.degradation < HoursPerYear
    ensures Age(p, hours) == p.(power := Age(p, hours).power)
    ensures 0.0 < Age(p, hours).power
  {
    if hours > 0 {
      AgeStaysPositive(p, hours - 1);
      AgedBounds(Age(p, hours - 1));
    }
  }
}
