/** Utility price plans: hourly cost accumulation and monthly settlement. */
module TariffEngine {
  import opened Calendar
  import opened Outcomes

  /** The three rate seasons: July-August, November-April, and the months in between. */
  datatype Season = PeakSummer | Winter | Summer

  function SeasonOf(month: Month): (s: Season)
    ensures s == PeakSummer <==> 7 <= month <= 8
    ensures s == Summer <==> 5 <= month <= 6 || 9 <= month <= 10
    ensures s == Winter <==> month <= 4 || 11 <= month
  {
    if month == 7 || month == 8 then PeakSummer
    else if month <= 4 || month >= 11 then Winter
    else Summer
  }

  /** The on-peak time-of-day window of a season. */
  predicate InOnPeakWindow(season: Season, hour: Hour)
  {
    match season
    case Winter => (5 <= hour < 9) || (17 <= hour < 21)
    case _ => 14 <= hour < 20
  }

  /** On-peak hours: weekdays only, inside the season's window. */
  predicate IsOnPeak(t: Timestamp)
    ensures IsOnPeak(t) ==> t.weekday < 5 && 5 <= t.hour <= 20
  {
    t.weekday < 5 && InOnPeakWindow(SeasonOf(t.month), t.hour)
  }

  /** A price for each season. */
  datatype SeasonRates = SeasonRates(peakSummer: real, winter: real, summer: real)
  {
    function For(s: Season): real
    {
      match s
      case PeakSummer => peakSummer
      case Winter => winter
      case Summer => summer
    }
  }

  /** Time-of-use energy prices ($/kWh). */
  datatype TouRates = TouRates(onPeak: SeasonRates, offPeak: SeasonRates)
  {
    function For(t: Timestamp): real
    {
      if IsOnPeak(t) then onPeak.For(SeasonOf(t.month)) else offPeak.For(SeasonOf(t.month))
    }
  }

  /** The published rate tables. The usage and settlement functions below follow the branch structure of `e13_usage`
      and `e15_usage`, with the prices written as literals, and are proved to charge exactly these prices. */
  const E13Import: TouRates := TouRates(SeasonRates(0.2409, 0.0951, 0.2094), SeasonRates(0.0730, 0.0691, 0.0727))
  const E13Export: real := 0.0281
  const E15Energy: TouRates := TouRates(SeasonRates(0.0622, 0.0410, 0.0462), SeasonRates(0.0412, 0.0370, 0.0360))
  /** E15 demand charge ($ per kW of average daily on-peak peak). */
  const E15Demand: SeasonRates := SeasonRates(21.94, 19.29, 8.13)
  /** Monthly service charge of both plans ($). */
  const ServiceCharge: real := 32.44

  /** The supported price plans. */
  datatype Plan = E13 | E15

  /** Per-period accumulator state. `peak` is kept for a demand-only plan and never updated by E13 or E15. */
  datatype Accumulator = Accumulator(peak: real, dailyPeaks: seq<real>, usageCost: real)

  /** Why an hourly update could not complete. */
  datatype TariffError =
    /** An E15 on-peak hour arrived before any day had opened a daily-peak slot. */
    | NoDailySlot

  /** Accumulator state at the start of a billing period. */
  function Reset(): (r: Accumulator)
    ensures r.peak == 0.0 && |r.dailyPeaks| == 0 && r.usageCost == 0.0
    ensures AllNonNegative(r.dailyPeaks)
  {
    Accumulator(0.0, [], 0.0)
  }

  /** A settled bill and the accumulator left behind. */
  datatype Settlement = Settlement(bill: real, acc: Accumulator)

  function PositivePart(x: real): real
  {
    if x > 0.0 then x else 0.0
  }

  predicate AllNonNegative(xs: seq<real>)
  {
    forall i :: 0 <= i < |xs| ==> 0.0 <= xs[i]
  }

  function Max(a: real, b: real): real
  {
    if a >= b then a else b
  }

  /** E13 cost of one hour by the rate table: imports at the time-of-use price, exports (and zero) at the export
      price. */
  function E13Charge(t: Timestamp, energy: real): real
  {
    if energy > 0.0 then energy * E13Import.For(t) else energy * E13Export
  }

  /** E13 hourly update: imports at the time-of-use price, exports (and zero) at the flat export price. */
  function E13Usage(acc: Accumulator, t: Timestamp, energy: real): (r: Accumulator)
    ensures r == acc.(usageCost := r.usageCost)
    ensures energy <= 0.0 ==> r.usageCost == acc.usageCost + energy * E13Export
    ensures energy > 0.0 ==> r.usageCost == acc.usageCost + energy * E13Import.For(t)
    ensures r.usageCost == acc.usageCost + E13Charge(t, energy)
  {
    var cost :=
      if energy > 0.0 then
        if t.month == 7 || t.month == 8 then
          if t.hour >= 14 && t.hour < 20 && t.weekday < 5 then energy * 0.2409 else energy * 0.0730
        else if t.month <= 4 || t.month >= 11 then
          if ((t.hour >= 5 && t.hour < 9) || (t.hour >= 17 && t.hour < 21)) && t.weekday < 5 then energy * 0.0951
          else energy * 0.0691
        else
          if t.hour >= 14 && t.hour < 20 && t.weekday < 5 then energy * 0.2094 else energy * 0.0727
      else
        energy * 0.0281;
    acc.(usageCost := acc.usageCost + cost)
  }

  /** Raises the last daily-peak slot to `energy` if that is larger. */
  function RaiseLastPeak(peaks: seq<real>, energy: real): (r: seq<real>)
    requires |peaks| > 0
    ensures |r| == |peaks| && r[..|r| - 1] == peaks[..|peaks| - 1]
    ensures r[|r| - 1] == Max(peaks[|peaks| - 1], energy)
  {
    if energy > peaks[|peaks| - 1] then peaks[|peaks| - 1 := energy] else peaks
  }

  /** E15 hourly update: every hour opens a slot at midnight and is charged at the time-of-use price whatever the sign
      of the energy; on-peak hours raise the day's slot, and fail when no slot is open. */
  function E15Usage(acc: Accumulator, t: Timestamp, energy: real): (r: Result<Accumulator, TariffError>)
    ensures r.Err? <==> IsOnPeak(t) && |acc.dailyPeaks| == 0
    ensures r.Ok? ==> r.value.peak == acc.peak
    ensures r.Ok? ==> r.value.usageCost == acc.usageCost + energy * E15Energy.For(t)
    ensures r.Ok? ==> |r.value.dailyPeaks| == |acc.dailyPeaks| + (if t.hour == 0 then 1 else 0)
    ensures r.Ok? && !IsOnPeak(t) ==> r.value.dailyPeaks == acc.dailyPeaks + (if t.hour == 0 then [0.0] else [])
    ensures r.Ok? && IsOnPeak(t) ==>
      && var n := |acc.dailyPeaks|;
      && r.value.dailyPeaks[..n - 1] == acc.dailyPeaks[..n - 1]
      && r.value.dailyPeaks[n - 1] == Max(acc.dailyPeaks[n - 1], energy)
    ensures r.Ok? && AllNonNegative(acc.dailyPeaks) ==> AllNonNegative(r.value.dailyPeaks)
  {
    var peaks := if t.hour == 0 then acc.dailyPeaks + [0.0] else acc.dailyPeaks;
    if t.month == 7 || t.month == 8 then
      if t.hour >= 14 && t.hour < 20 && t.weekday < 5 then
        if |peaks| == 0 then Err(NoDailySlot)
        else Ok(Accumulator(acc.peak, RaiseLastPeak(peaks, energy), acc.usageCost + energy * 0.0622))
      else
        Ok(Accumulator(acc.peak, peaks, acc.usageCost + energy * 0.0412))
    else if t.month <= 4 || t.month >= 11 then
      if ((t.hour >= 5 && t.hour < 9) || (t.hour >= 17 && t.hour < 21)) && t.weekday < 5 then
        if |peaks| == 0 then Err(NoDailySlot)
        else Ok(Accumulator(acc.peak, RaiseLastPeak(peaks, energy), acc.usageCost + energy * 0.0410))
      else
        Ok(Accumulator(acc.peak, peaks, acc.usageCost + energy * 0.0370))
    else
      if t.hour >= 14 && t.hour < 20 && t.weekday < 5 then
        if |peaks| == 0 then Err(NoDailySlot)
        else Ok(Accumulator(acc.peak, RaiseLastPeak(peaks, energy), acc.usageCost + energy * 0.0462))
      else
        Ok(Accumulator(acc.peak, peaks, acc.usageCost + energy * 0.0360))
  }

  function Sum(xs: seq<real>): real
  {
    if |xs| == 0 then 0.0 else Sum(xs[..|xs| - 1]) + xs[|xs| - 1]
  }

  /** Arithmetic mean; `None` for an empty list, where numpy's mean yields NaN. */
  function Mean(xs: seq<real>): (m: Option<real>)
    ensures m.Some? <==> |xs| > 0
    ensures m.Some? ==> m.value * (|xs| as real) == Sum(xs)
  {
    if |xs| == 0 then None else Some(Sum(xs) / (|xs| as real))
  }

  /** E13 settlement: the service charge plus any positive usage cost; a credit never lowers the bill. */
  function E13Total(acc: Accumulator, t: Timestamp): (s: Settlement)
    ensures s.acc == Reset()
    ensures s.bill == ServiceCharge + PositivePart(acc.usageCost)
  {
    var total := if acc.usageCost > 0.0 then 32.44 + acc.usageCost else 32.44;
    Settlement(total, Reset())
  }

  /** E15 settlement: service charge plus usage cost plus the season's demand rate times the mean daily peak, floored
      at the service charge. With no daily peaks the mean is NaN, the comparison fails, and the bill is the service
      charge. */
  function E15Total(acc: Accumulator, t: Timestamp): (s: Settlement)
    ensures s.acc == Reset()
    ensures |acc.dailyPeaks| == 0 ==> s.bill == ServiceCharge
    ensures |acc.dailyPeaks| > 0 ==>
      s.bill == ServiceCharge + PositivePart(acc.usageCost + Mean(acc.dailyPeaks).value * E15Demand.For(SeasonOf(t.month)))
  {
    var rate := if t.month == 7 || t.month == 8 then 21.94 else if t.month <= 4 || t.month >= 11 then 19.29 else 8.13;
    match Mean(acc.dailyPeaks)
    case None => Settlement(32.44, Reset())
    case Some(m) =>
      var charge := m * rate;
      if acc.usageCost + charge > 0.0 then Settlement(32.44 + acc.usageCost + charge, Reset())
      else Settlement(32.44, Reset())
  }

  /** Hourly update of the plan in use. */
  function Usage(plan: Plan, acc: Accumulator, t: Timestamp, energy: real): (r: Result<Accumulator, TariffError>)
    ensures r.Err? <==> plan == E15 && IsOnPeak(t) && |acc.dailyPeaks| == 0
  {
    match plan
    case E13 => Ok(E13Usage(acc, t, energy))
    case E15 => E15Usage(acc, t, energy)
  }

  /** Settlement of the plan in use: the bill is never below the service charge and the accumulator is cleared. */
  function Settle(plan: Plan, acc: Accumulator, t: Timestamp): (s: Settlement)
    ensures s.acc == Reset()
    ensures s.bill >= ServiceCharge
  {
    match plan
    case E13 => E13Total(acc, t)
    case E15 => E15Total(acc, t)
  }
}
