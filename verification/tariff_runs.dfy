/** Properties of the tariff engine over several hourly updates and across settlements. */
module TariffRuns {
  import opened Calendar
  import opened Outcomes
  import opened TariffEngine

  /** One hourly usage update: the hour and the grid energy (positive = import). */
  datatype Call = Call(time: Timestamp, energy: real)

  /** The hourly updates applied in order; the first failure stops the run. */
  function Run(plan: Plan, acc: Accumulator, calls: seq<Call>): Result<Accumulator, TariffError>
  {
    if |calls| == 0 then Ok(acc)
    else
      match Run(plan, acc, calls[..|calls| - 1])
      case Err(e) => Err(e)
      case Ok(a) => Usage(plan, a, calls[|calls| - 1].time, calls[|calls| - 1].energy)
  }

  /** Number of calls falling on hour 0. */
  function Midnights(calls: seq<Call>): nat
  {
    if |calls| == 0 then 0
    else Midnights(calls[..|calls| - 1]) + (if calls[|calls| - 1].time.hour == 0 then 1 else 0)
  }

  function E13Charges(calls: seq<Call>): real
  {
    if |calls| == 0 then 0.0 else E13Charges(calls[..|calls| - 1]) + E13Charge(calls[|calls| - 1].time, calls[|calls| - 1].energy)
  }

  /** E15 energy cost of the calls according to the rate table (no separate export price). */
  function E15Charges(calls: seq<Call>): real
  {
    if |calls| == 0 then 0.0
    else E15Charges(calls[..|calls| - 1]) + calls[|calls| - 1].energy * E15Energy.For(calls[|calls| - 1].time)
  }

  /** E13 never fails, touches only the usage cost, and adds exactly the table charges of the calls. */
  lemma {:induction false} E13RunTotal(acc: Accumulator, calls: seq<Call>)
    ensures Run(E13, acc, calls) == Ok(acc.(usageCost := acc.usageCost + E13Charges(calls)))
  {
    if |calls| > 0 {
      E13RunTotal(acc, calls[..|calls| - 1]);
    }
  }

  /** A successful E15 run never touches `peak`. */
  lemma {:induction false} E15RunKeepsPeak(acc: Accumulator, calls: seq<Call>)
    ensures Run(E15, acc, calls).Ok? ==> Run(E15, acc, calls).value.peak == acc.peak
  {
    if |calls| > 0 {
      E15RunKeepsPeak(acc, calls[..|calls| - 1]);
    }
  }

  /** A successful E15 run opens exactly one daily-peak slot per call at hour 0. */
  lemma {:induction false} E15RunSlots(acc: Accumulator, calls: seq<Call>)
    ensures Run(E15, acc, calls).Ok? ==>
      |Run(E15, acc, calls).value.dailyPeaks| == |acc.dailyPeaks| + Midnights(calls)
  {
    if |calls| > 0 {
      E15RunSlots(acc, calls[..|calls| - 1]);
    }
  }

  /** A successful E15 run adds exactly the table energy charges of its calls. */
  lemma {:induction false} E15RunCost(acc: Accumulator, calls: seq<Call>)
    ensures Run(E15, acc, calls).Ok? ==>
      Run(E15, acc, calls).value.usageCost == acc.usageCost + E15Charges(calls)
  {
    if |calls| > 0 {
      var n := |calls| - 1;
      var c := calls[n];
      E15RunCost(acc, calls[..n]);
      assert E15Charges(calls) == E15Charges(calls[..n]) + c.energy * E15Energy.For(c.time);
      if Run(E15, acc, calls[..n]).Ok? {
        assert Run(E15, acc, calls) == E15Usage(Run(E15, acc, calls[..n]).value, c.time, c.energy);
      }
    }
  }

  /** A successful E15 run keeps every daily-peak slot non-negative. */
  lemma {:induction false} E15RunNonNegative(acc: Accumulator, calls: seq<Call>)
    requires AllNonNegative(acc.dailyPeaks)
    ensures Run(E15, acc, calls).Ok? ==> AllNonNegative(Run(E15, acc, calls).value.dailyPeaks)
  {
    if |calls| > 0 {
      E15RunNonNegative(acc, calls[..|calls| - 1]);
    }
  }

  /** A successful E15 run opens one daily-peak slot per midnight, keeps every slot non-negative, and adds exactly the
      table energy charges. */
  lemma E15RunShape(acc: Accumulator, calls: seq<Call>)
    ensures Run(E15, acc, calls).Ok? ==>
      && var a := Run(E15, acc, calls).value;
      && a.peak == acc.peak
      && |a.dailyPeaks| == |acc.dailyPeaks| + Midnights(calls)
      && a.usageCost == acc.usageCost + E15Charges(calls)
      && (AllNonNegative(acc.dailyPeaks) ==> AllNonNegative(a.dailyPeaks))
  {
    E15RunKeepsPeak(acc, calls);
    E15RunSlots(acc, calls);
    E15RunCost(acc, calls);
    if AllNonNegative(acc.dailyPeaks) {
      E15RunNonNegative(acc, calls);
    }
  }

  /** Some on-peak call comes before any call at hour 0. */
  predicate OnPeakBeforeMidnight(calls: seq<Call>)
  {
    exists i :: 0 <= i < |calls| && IsOnPeak(calls[i].time) && Midnights(calls[..i]) == 0
  }

  /** An E15 run fails exactly when it starts with no open slot and meets an on-peak hour before the first midnight. */
  lemma {:induction false} E15RunFails(acc: Accumulator, calls: seq<Call>)
    ensures Run(E15, acc, calls).Err? <==> |acc.dailyPeaks| == 0 && OnPeakBeforeMidnight(calls)
  {
    if |calls| > 0 {
      var n := |calls| - 1;
      var p := calls[..n];
      E15RunFails(acc, p);
      E15RunSlots(acc, p);
      assert calls[..n] == p;
      forall i | 0 <= i < n
        ensures calls[i] == p[i] && calls[..i] == p[..i]
      {
      }
      if Run(E15, acc, p).Err? {
        var i :| 0 <= i < |p| && IsOnPeak(p[i].time) && Midnights(p[..i]) == 0;
        assert IsOnPeak(calls[i].time) && Midnights(calls[..i]) == 0;
      } else {
        var c := calls[n];
        assert Run(E15, acc, calls) == E15Usage(Run(E15, acc, p).value, c.time, c.energy);
        if |acc.dailyPeaks| == 0 && OnPeakBeforeMidnight(calls) {
          var i :| 0 <= i < |calls| && IsOnPeak(calls[i].time) && Midnights(calls[..i]) == 0;
          assert i == n;
        }
      }
    }
  }

  /** The calls of one day's first hours, hour h carrying `energies[h]`. */
  function DayCalls(month: Month, day: Day, weekday: Weekday, energies: seq<real>): (calls: seq<Call>)
    requires |energies| <= 24
    ensures |calls| == |energies|
    ensures forall h :: 0 <= h < |calls| ==> calls[h] == Call(Timestamp(month, day, h, weekday), energies[h])
  {
    seq(|energies|, h requires 0 <= h < |energies| => Call(Timestamp(month, day, h, weekday), energies[h]))
  }

  /** Reference value of a day's peak: the largest on-peak energy of the day, and 0 if none is larger. */
  function DayPeak(month: Month, day: Day, weekday: Weekday, energies: seq<real>): real
    requires |energies| <= 24
  {
    if |energies| == 0 then 0.0
    else
      var h := |energies| - 1;
      var m := DayPeak(month, day, weekday, energies[..h]);
      if IsOnPeak(Timestamp(month, day, h, weekday)) then Max(m, energies[h]) else m
  }

  /** DayPeak is the maximum of 0 and the on-peak energies. */
  lemma {:induction false} DayPeakIsMax(month: Month, day: Day, weekday: Weekday, energies: seq<real>)
    requires |energies| <= 24
    ensures 0.0 <= DayPeak(month, day, weekday, energies)
    ensures forall h :: 0 <= h < |energies| && IsOnPeak(Timestamp(month, day, h, weekday)) ==>
      energies[h] <= DayPeak(month, day, weekday, energies)
    ensures DayPeak(month, day, weekday, energies) == 0.0 ||
      exists h :: 0 <= h < |energies| && IsOnPeak(Timestamp(month, day, h, weekday)) &&
        energies[h] == DayPeak(month, day, weekday, energies)
  {
    if |energies| > 0 {
      var n := |energies| - 1;
      var prefix := energies[..n];
      DayPeakIsMax(month, day, weekday, prefix);
      forall h | 0 <= h < n
        ensures prefix[h] == energies[h]
      {
      }
    }
  }

  /** A whole day (or its first hours) of E15 updates starting at midnight succeeds and leaves exactly one new slot
      holding the day's peak. */
  lemma {:induction false} E15Day(acc: Accumulator, month: Month, day: Day, weekday: Weekday, energies: seq<real>)
    requires 1 <= |energies| <= 24
    ensures Run(E15, acc, DayCalls(month, day, weekday, energies)).Ok?
    ensures Run(E15, acc, DayCalls(month, day, weekday, energies)).value.dailyPeaks ==
      acc.dailyPeaks + [DayPeak(month, day, weekday, energies)]
  {
    var calls := DayCalls(month, day, weekday, energies);
    var n := |energies| - 1;
    if n == 0 {
      assert calls[..0] == [];
      assert !IsOnPeak(calls[0].time);
    } else {
      var prefix := energies[..n];
      E15Day(acc, month, day, weekday, prefix);
      assert calls[..n] == DayCalls(month, day, weekday, prefix);
    }
  }

  /** A July weekday where only hour 15 imports 5 kWh records a daily peak of exactly 5. */
  lemma E15SummerDayScenario()
    ensures var energies := seq(24, h => if h == 15 then 5.0 else 0.0);
      var r := Run(E15, Reset(), DayCalls(7, 1, 2, energies));
      r.Ok? && r.value.dailyPeaks == [5.0]
  {
    var energies := seq(24, h => if h == 15 then 5.0 else 0.0);
    E15Day(Reset(), 7, 1, 2, energies);
    DayPeakIsMax(7, 1, 2, energies);
    assert IsOnPeak(Timestamp(7, 1, 15, 2));
  }

  /** After a settlement a second one, with no usage in between, bills exactly the service charge. */
  lemma SecondSettlementIsServiceCharge(plan: Plan, acc: Accumulator, t: Timestamp, t2: Timestamp)
    ensures Settle(plan, Settle(plan, acc, t).acc, t2).bill == ServiceCharge
  {
  }

  /** Nothing leaks across a settlement: the next period runs exactly as it would from a fresh plan. */
  lemma NoLeakAcrossSettlement(plan: Plan, acc: Accumulator, t: Timestamp, calls: seq<Call>)
    ensures Run(plan, Settle(plan, acc, t).acc, calls) == Run(plan, Reset(), calls)
  {
  }

  /** Exporting 10 kWh on E13 credits 10 times the export price whatever the hour. */
  lemma E13ExportScenario(acc: Accumulator, t: Timestamp)
    ensures E13Usage(acc, t, -10.0).usageCost == acc.usageCost - 0.281
  {
  }

  /** On weekends an E13 import is always charged at the off-peak price of its season. */
  lemma E13WeekendOffPeak(acc: Accumulator, t: Timestamp, energy: real)
    requires t.weekday >= 5 && energy > 0.0
    ensures E13Usage(acc, t, energy).usageCost == acc.usageCost + energy * E13Import.offPeak.For(SeasonOf(t.month))
  {
  }

  /** E15 has no export price: an export is credited at the hour's import price, more than E13's export credit. */
  lemma E15ExportCredit(acc: Accumulator, t: Timestamp, energy: real)
    requires energy < 0.0
    requires E15Usage(acc, t, energy).Ok?
    ensures E15Usage(acc, t, energy).value.usageCost == acc.usageCost + energy * E15Energy.For(t)
    ensures E15Usage(acc, t, energy).value.usageCost < E13Usage(acc, t, energy).usageCost
  {
    assert E15Energy.For(t) > E13Export;
  }

  /** Bounds on the elements bound the sum. */
  lemma {:induction false} SumBounds(xs: seq<real>, lo: real, hi: real)
    requires forall i :: 0 <= i < |xs| ==> lo <= xs[i] <= hi
    ensures lo * (|xs| as real) <= Sum(xs) <= hi * (|xs| as real)
  {
    if |xs| > 0 {
      SumBounds(xs[..|xs| - 1], lo, hi);
      assert (|xs| as real) == ((|xs| - 1) as real) + 1.0;
    }
  }

  /** The mean lies between any lower and upper bound of the elements. */
  lemma MeanWithin(xs: seq<real>, lo: real, hi: real)
    requires |xs| > 0
    requires forall i :: 0 <= i < |xs| ==> lo <= xs[i] <= hi
    ensures lo <= Mean(xs).value <= hi
  {
    SumBounds(xs, lo, hi);
    var n := |xs| as real;
    var m := Mean(xs).value;
    assert m * n == Sum(xs);
  }

  /** With non-negative daily peaks the E15 demand charge never lowers the bill below service charge plus usage. */
  lemma E15DemandNonNegative(acc: Accumulator, t: Timestamp)
    requires |acc.dailyPeaks| > 0 && AllNonNegative(acc.dailyPeaks)
    ensures E15Total(acc, t).bill >= ServiceCharge + acc.usageCost
  {
    var m := Mean(acc.dailyPeaks).value;
    var rate := E15Demand.For(SeasonOf(t.month));
    MeanWithin(acc.dailyPeaks, 0.0, MaxOf(acc.dailyPeaks));
    assert 0.0 <= m && 0.0 < rate;
    assert 0.0 <= m * rate;
  }

  /** The largest element of a non-empty list: an upper bound that some element attains. */
  function MaxOf(xs: seq<real>): (m: real)
    requires |xs| > 0
    ensures forall i :: 0 <= i < |xs| ==> xs[i] <= m
    ensures exists i :: 0 <= i < |xs| && xs[i] == m
  {
    if |xs| == 1 then xs[0]
    else
      var init := xs[..|xs| - 1];
      assert forall i :: 0 <= i < |init| ==> init[i] == xs[i];
      Max(MaxOf(init), xs[|xs| - 1])
  }
}
