# Solar + battery + tariff hourly simulator, modelled in Dafny

This project models the arithmetic core of `calc.py`, a script that estimates a household's monthly electricity
bill for combinations of solar panel, battery and SRP price plan (E-13 time-of-use, E-15 time-of-use with a
demand charge). Each simulated hour it:

1. computes the panel's energy from irradiance at a fixed cell temperature of 40 °C, then ages the panel's
   rated power by `degradation / (24*365)`;
2. offers generation minus load to a greedy battery, which clamps to the inverter limit, saturates at full or
   empty, and returns a residual for the grid;
3. charges the negated residual (positive = import) to the price plan's accumulator;
4. on the last hour of the last day of a month, settles the bill and clears the accumulator.

Energy and money are Dafny `real`, so the arithmetic is exact rational arithmetic and says nothing about binary
floating point. The time step is the constant `Units.TimeStep = 1.0` hour, as in the source.

Modules (one per component):

- `Units` (units.dfy): the time step and the Kelvin/Celsius conversions.
- `Outcomes` (outcomes.dfy): `Result` and `Option`.
- `Calendar` (calendar.dfy): timestamps `{month, day, hour, weekday}` with Monday = 0; Gregorian month
  lengths; the billing-boundary predicate.
- `PanelModel` (panel.dfy): `SolarPanel`, one hour of output plus ageing, and ageing over many hours.
- `BatteryModel` (battery.dfy): `Battery` and the greedy dispatch step.
- `TariffEngine` (tariff.dfy): the per-instance method injection of `EnergyPlan` becomes `Plan = E13 | E15`.
  It has an `Accumulator {peak, dailyPeaks, usageCost}`, rate tables as data, the hourly usage updates and
  the settlements.
- `TariffRuns` (tariff_runs.dfy): folds of hourly updates over many hours and across settlements.
- `HourlyDispatch` (dispatch.dfy): the composition of one hour (calc.py lines 322-327).

## Behaviour kept as written

The model follows the code where it departs from the evident design. These lemmas show each departure:

- On the deficit side the inverter residual is `e - max_power*time_step`, not `e + max_power*time_step`
  (calc.py:112). So a deficit beyond the inverter limit draws twice the limit more from the grid than the
  deficit and the battery account for (`BatteryModel.DeficitOverdraw`, `BatteryModel.DeficitClampExample`:
  a 10 kWh deficit on the 13.5 kWh / 5 kW battery gives a residual of -20). When the deficit is not clamped,
  the step never creates energy (`BatteryModel.NoEnergyCreated`).
- `e15_usage` has no export branch. Negative energy is credited at the hour's import price, which is more
  than E-13's export credit (`TariffRuns.E15ExportCredit`).
- A battery with zero capacity is a pass-through only when its inverter power is also zero, as in the
  catalog's `'None'` battery. With capacity 0 and a working inverter, a small surplus sets the state of
  charge to 1 and comes back reduced by the efficiency (`BatteryModel.ZeroCapacityCharging`).
- `np.mean([])` is NaN, and `usage_cost + NaN > 0.0` is false. So an E-15 settlement with no daily-peak
  slot bills exactly the service charge, whatever the usage cost was. `TariffEngine.Mean` returns `None`
  for an empty list, and `TariffEngine.E15Total` takes the service-charge branch in that case.
- An on-peak E-15 hour with no open daily slot raises `IndexError` at `self.daily_peaks[-1]`. This is
  `Err(NoDailySlot)`, and `TariffRuns.E15RunFails` states exactly when a run of hours meets it. The source adds
  the hour's cost to `usage_cost` (calc.py:184) just before the failing index (calc.py:185). The error result
  drops that partial update; nothing in the source catches the exception, so no caller can observe the
  difference.
- Settlement floors the bill at the service charge: a net credit never lowers the bill below it
  (calc.py:168-171, 227-230).

## Model

| member | source | states |
|---|---|---|
| Units.Kelvin | calc.py:65-67 | converting to kelvin and back gives the original Celsius value, and kelvin is the larger number |
| Units.Celsius | calc.py:69-71 | the Celsius value is below the kelvin value |
| Units.KelvinCelsiusRoundTrip | calc.py:65-71 | the two conversions are mutually inverse in both directions |
| PanelModel.CellTemperature | calc.py:89 | the cell temperature is the constant 40 °C whatever the irradiance and ambient temperature; the thermal equation is commented out |
| PanelModel.Aged | calc.py:93-94 | one hour of degradation changes only the rated power |
| PanelModel.AgedBounds | calc.py:94 | ageing scales power by `1 - degradation/8760`; for power >= 0 and 0 <= degradation <= 8760 the power stays in [0, power]; it strictly drops when both are positive; it stays positive below 8760; zero degradation changes nothing |
| PanelModel.Step | calc.py:74-96 | the hour's energy is rated power × efficiency × irradiance × (1 + tcp·(40 - 25)) × time step, using the power before ageing; it is 0 when irradiance or power is 0; the returned panel is the aged one |
| PanelModel.AmbientIgnored | calc.py:84-89 | the cell temperature is the constant 40 °C, so the hour's result does not depend on ambient temperature |
| PanelModel.EnergyProportionalToIrradiance | calc.py:92 | energy scales linearly with irradiance |
| PanelModel.EnergyNonNegative | calc.py:92-96 | with non-negative power, efficiency and irradiance and a non-negative temperature factor, energy is non-negative |
| PanelModel.NextHourAged | calc.py:92-96 | ageing shows up in the next hour: same irradiance, energy multiplied by the ageing factor |
| PanelModel.DecayIsPow | calc.py:94 | scaling by a factor n times equals multiplying by its n-th power |
| PanelModel.AgeIsDecay | calc.py:93-94 | after n hours only the rated power has changed, scaled by the hourly factor n times |
| PanelModel.AgeClosedForm | calc.py:93-94 | after n hours the rated power is the initial power times `(1 - degradation/8760)^n` |
| PanelModel.AgeMonotone | calc.py:93-94 | for a valid panel the rated power never increases from one hour to any later hour and never goes negative |
| PanelModel.AgeStrictlyDecreasing | calc.py:93-94 | with positive power and 0 < degradation < 8760, the power strictly decreases every hour and stays positive |
| BatteryModel.Admitted | calc.py:103-113 | the energy the inverter passes to the cells lies within ±limit, and equals the offer when the offer is within the limit |
| BatteryModel.Bypass | calc.py:103-113 | the part that bypasses the cells is 0 within the limit; together with the admitted part it gives back the offer, except that a clamped deficit loses twice the limit (line 112 subtracts the limit on both sides), so there the bypass is below the offer |
| BatteryModel.Step | calc.py:98-126 | only the state of charge changes; with capacity >= 0 and soc in [0, 1] before, soc is in [0, 1] after, in every branch; with capacity 0 and max power 0 the offer passes through unchanged |
| BatteryModel.Conservation | calc.py:102-126 | offer = residual + change in stored energy + (1 - efficiency) × spilled energy, minus twice the inverter limit when the deficit is clamped |
| BatteryModel.NoEnergyCreated | calc.py:102-126 | outside a clamped deficit, residual plus stored change never exceeds the offer; they are equal when the battery is lossless or does not spill |
| BatteryModel.ChargeClamp | calc.py:103-126 | a surplus above the inverter limit dispatches exactly the limit and adds the excess to the residual, so stored energy rises by at most the limit |
| BatteryModel.DeficitClamp | calc.py:111-122 | a deficit beyond the limit dispatches the negated limit and adds `e - limit` to the residual |
| BatteryModel.DeficitOverdraw | calc.py:111-122 | then residual plus stored change equals the deficit minus twice the limit, which is below the deficit |
| BatteryModel.Saturation | calc.py:115-126 | within the inverter limit: a total in [0, capacity] gives residual 0 and stored energy changed by exactly the offer; overflow gives soc 1 and residual efficiency × (total - capacity); underflow gives soc 0 and residual equal to the negative total |
| BatteryModel.SurplusResidual | calc.py:98-126 | a surplus never becomes an import, and the residual is at most the surplus |
| BatteryModel.DeficitResidual | calc.py:98-126 | a deficit never becomes an export; within the limit the residual is no deeper than the deficit |
| BatteryModel.NoBatteryPassThrough | calc.py:103-126 | the `'None'` battery (capacity 0, max power 0) returns every offer unchanged and keeps its state |
| BatteryModel.ZeroCapacityCharging | calc.py:116-119 | capacity 0 with a working inverter: a surplus within the limit sets soc to 1 and returns efficiency × surplus |
| BatteryModel.InverterClampExample | calc.py:103-126 | capacity 100, max power 2, efficiency 0.9, empty, offer 10: residual 8 and soc 0.02 |
| BatteryModel.DeficitClampExample | calc.py:111-122 | capacity 13.5, max power 5, efficiency 0.9, empty, offer -10: residual -20 and soc 0 |
| BatteryModel.SurplusArithmetic | calc.py:117-119 | over plain reals: a bypass plus the efficiency-scaled overflow lies between 0 and bypass plus admitted energy |
| Calendar.DaysInMonth | calc.py:326 | month lengths are 28 to 31; February has 29 days exactly in Gregorian leap years; April, June, September and November have 30 |
| Calendar.DaysInYear | calc.py:326 | the twelve month lengths sum to 366 in leap years and 365 otherwise |
| Calendar.IsBillingBoundary | calc.py:326 | a billing hour is hour 23 of day 28 or later; in February it is day 29 exactly in leap years; in the other months it is day 30 or later |
| Calendar.OneBoundaryPerMonth | calc.py:325-327 | among a month's hours exactly one is a billing boundary, the last one, so each month is settled once |
| TariffEngine.SeasonOf | calc.py:138-160 | July-August is the peak-summer season, May-June and September-October summer, November-April winter |
| TariffEngine.IsOnPeak | calc.py:181-206 | on-peak hours fall on weekdays between 05:00 and 20:00, so hour 0 and weekends are never on-peak |
| TariffEngine.Reset | calc.py:57-63 | a reset accumulator has peak 0, no daily-peak slots and no usage cost; TariffRuns.SecondSettlementIsServiceCharge and TariffRuns.NoLeakAcrossSettlement show what it means for the next period |
| TariffEngine.E13Usage | calc.py:133-163 | only the usage cost changes; energy <= 0 adds energy × 0.0281 whatever the month, hour or weekday; energy > 0 adds energy × the table price for the season and on-peak status (weekends off-peak) |
| TariffEngine.RaiseLastPeak | calc.py:185-186 | the last daily slot becomes max(slot, energy); earlier slots are unchanged |
| TariffEngine.E15Usage | calc.py:176-209 | fails exactly on an on-peak hour with no open slot; otherwise adds energy × the table price (no export branch), opens one 0.0 slot at hour 0, leaves slots unchanged off-peak, raises the last slot on-peak, and keeps slots non-negative |
| TariffEngine.Mean | calc.py:218-224 | defined exactly for non-empty lists, where mean × length = sum |
| TariffEngine.E13Total | calc.py:165-173 | bill = 32.44 + the positive part of the usage cost, and the accumulator is reset |
| TariffEngine.E15Total | calc.py:211-233 | bill = 32.44 + the positive part of (usage cost + mean daily peak × season demand rate); with no slots it is exactly 32.44; the accumulator is reset |
| TariffEngine.Usage | calc.py:53-54 | dispatching on the plan fails only for E-15 on-peak hours with no open slot |
| TariffEngine.Settle | calc.py:55-63 | dispatching on the plan bills at least the service charge and resets the accumulator |
| TariffRuns.E13RunTotal | calc.py:133-163 | a run of E-13 hours never fails and adds exactly the sum of the table charges |
| TariffRuns.E15RunKeepsPeak | calc.py:176-209 | a successful E-15 run never touches `peak` |
| TariffRuns.E15RunSlots | calc.py:178-179 | a successful E-15 run opens exactly one slot per call at hour 0 |
| TariffRuns.E15RunCost | calc.py:176-209 | a successful E-15 run adds exactly the table energy charges of its calls |
| TariffRuns.E15RunNonNegative | calc.py:178-186 | a successful E-15 run keeps non-negative slots non-negative |
| TariffRuns.E15RunShape | calc.py:176-209 | a successful E-15 run opens one slot per hour-0 call, keeps slots non-negative, keeps `peak`, and adds exactly the table energy charges |
| TariffRuns.E15RunFails | calc.py:178-186 | an E-15 run fails exactly when it starts with no slot and an on-peak hour comes before the first hour 0 |
| TariffRuns.DayPeakIsMax | calc.py:183-206 | the day-peak reference is the maximum of 0 and the on-peak energies |
| TariffRuns.E15Day | calc.py:176-209 | a day's hours from hour 0 onwards succeed and append exactly one slot holding the day's peak |
| TariffRuns.E15SummerDayScenario | calc.py:181-186 | 24 July weekday hours with 5 kWh only at hour 15 leave the single slot at exactly 5.0 |
| TariffRuns.SecondSettlementIsServiceCharge | calc.py:57-63 | settling twice in a row bills exactly the service charge the second time, for both plans |
| TariffRuns.NoLeakAcrossSettlement | calc.py:57-63 | after a settlement the next period runs exactly as from a fresh plan |
| TariffRuns.E13ExportScenario | calc.py:161-163 | exporting 10 kWh on E-13 lowers the usage cost by exactly 0.281 at any hour |
| TariffRuns.E13WeekendOffPeak | calc.py:138-160 | on Saturday and Sunday an E-13 import is charged the off-peak price of its season |
| TariffRuns.E15ExportCredit | calc.py:181-209 | an E-15 export is credited at the hour's import price, which lowers the cost more than E-13's export price |
| TariffRuns.SumBounds | calc.py:218 | bounds on the elements bound the sum |
| TariffRuns.MeanWithin | calc.py:218-224 | the mean of the daily peaks lies within any bounds of its elements |
| TariffRuns.E15DemandNonNegative | calc.py:215-230 | with non-negative daily peaks the E-15 bill is at least service charge plus usage cost |
| TariffRuns.MaxOf | calc.py:218 | a bound helper for the mean: the maximum of a non-empty list is at least every element and is one of them |
| HourlyDispatch.GridEnergy | calc.py:323 | the grid energy is the negated battery residual; with the `'None'` battery it is exactly load minus generation |
| HourlyDispatch.SimulateHour | calc.py:322-327 | fails only on E-15's missing slot; keeps the plan; ages the panel; emits a bill exactly at the billing boundary, and that bill is at least the service charge and leaves the accumulator reset |
| HourlyDispatch.HourRouting | calc.py:322-327 | the hour succeeds exactly when the plan's usage update does; the grid energy is the negated residual of the dispatched battery, and that battery is the one kept; off the boundary the accumulator is the plan's update with this hour's grid energy and there is no bill; on the boundary the bill settles that updated accumulator |
| HourlyDispatch.HourCharge | calc.py:323-324 | off the month boundary the hour adds exactly its table charge to the usage cost: E-13 import price for an import, 0.0281 otherwise; E-15 time-of-use price for either sign |
| HourlyDispatch.HourE13Bill | calc.py:323-327 | an E-13 hour at the month boundary never fails, bills 32.44 plus the positive part of the usage cost including this hour's charge, and resets the accumulator |
| HourlyDispatch.HourGridEnergy | calc.py:323 | grid energy is the negated battery residual of generation minus load |
| HourlyDispatch.NoBatteryGrid | calc.py:323 | without a battery the grid takes exactly load minus generation |
| HourlyDispatch.GridSign | calc.py:323 | for a valid battery a surplus hour never imports and exports at most the surplus; a deficit hour never exports |
| HourlyDispatch.HourKeepsValid | calc.py:322-327 | a valid rig (panel, battery and daily slots in range) stays valid through an hour |
| HourlyDispatch.NightWithoutBattery | calc.py:323 | with zero irradiance and no battery the hour imports exactly the load |

## Left out

- File handling: removing quotes from the CSV files and reading them (calc.py:270-286). This is I/O only.
- The driver loop (calc.py:288-329) cannot run as written: `load_data_now`, `solar_data_now` and `i` are
  undefined, and `datetime.strptime` and `datetime(...)` are called on the module. It also reuses one
  panel, battery and plan object across combinations. Only one hour's composition (lines 322-327) and the
  boundary predicate are modelled. Because the weather and load timestamps in that loop are undefined, one
  timestamp serves for both.
- HourlyDispatch.SimulateHour: takes `year` as a parameter, where the source reads the module-level `year`.
- Printing, plotting and `pdb` (calc.py:331-344): reporting only.
- The E-27 stub (calc.py:237-238) and the commented-out thermal equation (calc.py:87-88) have no
  behaviour. `PanelModel.CellTemperature` returns the constant 40 °C, as line 89 does.
- `peak`: reset to 0 and never updated by E-13 or E-15. It is kept in the accumulator, and the usage
  updates are proved to leave it alone.
- NaN: only the empty-list case of `np.mean` is modelled, as `None`. Floating-point rounding is not
  modelled.
- Catalog constructors (`SolarPanel`, `Battery`, calc.py:15-43) do not validate their parameters, so
  none is modelled. `PanelModel.Valid` and `BatteryModel.Valid` are hypotheses of the lemmas.
- TariffEngine.Settle: states only the floor and the reset. The exact bill for each plan is stated by
  `TariffEngine.E13Total` and `TariffEngine.E15Total`.
- BatteryModel.Conservation: requires a non-negative `max_power`. With a negative one the branch order of
  lines 106-113 no longer matches the clamp picture. All catalog batteries have non-negative power.
- pvoutput_scrape.py is not part of this model. It is browser automation, network and file I/O.
