# Atomic reactor simulation — a Dafny model

This project models the simulation core of the Atomic Reactor control
application: the `Reactor` class, which advances a shared reactor parameter
record (temperature, fuel, stored energy, energy output, power consumption,
speed of splitting, work mode) one tick at a time, and its run loop
`ReactorCycle`, which keeps ticking while the temperature is below 380 and
there is fuel for one more tick, polls a cancellation token at each
iteration and raises the high-temperature event above 300.

Layout:

- `reactor.dfy`, module `ReactorModel`:
  - a value model: `Params` is a snapshot of the record. The functions
    `EnergyOutputStep`, `EnergyConsumptionStep`, `TemperatureIncreaseStep`,
    `FuelConsumptionStep`, `CoolantStep` and `SetParamsStep` are the update
    steps. `Advance` is one tick, `AfterTicks` is n ticks and `Run` is the
    whole loop. Lemmas give n-tick closed forms, the loop's stop conditions,
    cancellation, the event log and a fuel bound on the number of ticks.
  - an imperative model: class `ReactorParams` is the mutable record. Class
    `Reactor` holds it as a read-only field and has one field-updating method
    per private step of the source, a `Tick` method for the seven calls of one loop iteration that follow the
    cancellation check and the event, and
    `ReactorCycle` with its `while` loop. Each method is proved against the
    value model.
- `scenarios.dfy`, module `ReactorScenarios`: client methods that derive
  concrete runs from the class contracts alone. The runs are accumulating
  heat, heating by formula, an unknown mode, the event before the tick,
  too little fuel, the temperature limit, and cancellation at the start.

Modelling decisions:

- Arithmetic is exact `real`. It is not IEEE `double`.
- The work mode has a third constructor, `Other`, for any value outside the
  two known modes. The model follows the TRACE build. In it, an unknown mode
  throws `ArgumentOutOfRangeException` in `ComputeTemperatureIncrease`. The
  model shows this as `ok == false` from the step and `Tick`, and as the
  outcome `InvalidWorkMode` from `ReactorCycle`.
- The cancellation token is a sequence `polls`. `polls[i]` is the token's
  value at the check of iteration `i`. Past the end of `polls` the token
  counts as requested. This makes every modelled run finite.
- The event's subscribers are the flag `subscribed`. The firings are the
  ghost log `fired`, with one entry per iteration that got past the
  cancellation check.
- `ReactorCycle` returns an `Outcome`: `Cancelled`, `TemperatureLimitReached`,
  `FuelExhausted` or `InvalidWorkMode`. The source method returns nothing.
  The model derives the outcome from the final record in the same way the
  loop guard fails (temperature first). No behaviour changes.
- Two details of the order of the steps matter:
  - An unknown mode does change the stored energy. `ComputeEnergyOutput` and
    `ComputeEnergyConsumption` run before the throw.
  - `EnergyOutput` is written last in a tick, by `SetReactorParams`.
- The closed forms for n ticks are stated as n copies of the per-tick change
  added up (`Repeat`); `RepeatIsProduct` shows such a sum equals n times the
  per-tick change.
- A run that starts with the guard holding ends on a physical limit only if
  the speed of splitting is positive. With speed ≤ 0 in a known mode such a
  guard never fails afterwards, and only the cancellation token ends the run.

## Model

| member | source | states |
|---|---|---|
| `ReactorModel.Advance` | AtomicReactorControl/Model/Reactor.cs:49-55 | One tick fails exactly for an unknown mode. Stored energy changes by exactly 5 × speed − power consumption, whatever the mode, even on failure. A completed tick lowers fuel by exactly 0.05 × speed and sets the energy output to 5 × speed. The temperature becomes T + speed − 10 (HeatWithinWork) or speed − 10 (HeatByFormulae). A failed tick leaves temperature, fuel and energy output untouched. Speed, power consumption and work mode are never written. |
| `ReactorModel.AfterTicksInputs` | AtomicReactorControl/Model/Reactor.cs:86-125 | Any number of ticks leaves speed, power consumption and work mode unchanged. |
| `ReactorModel.AfterTicksFuel` | AtomicReactorControl/Model/Reactor.cs:117-120 | After n ticks in a known mode, fuel is the initial fuel minus n copies of 0.05 × speed. |
| `ReactorModel.AfterTicksStoredEnergy` | AtomicReactorControl/Model/Reactor.cs:86-94 | After n ticks in a known mode, stored energy is the initial value plus n copies of 5 × speed − power consumption. |
| `ReactorModel.AfterTicksTemperature` | AtomicReactorControl/Model/Reactor.cs:96-125 | After n ticks, HeatWithinWork adds n copies of speed − 10 to the initial temperature. HeatByFormulae leaves exactly speed − 10 after any n ≥ 1. |
| `ReactorModel.AfterTicksEnergyOutput` | AtomicReactorControl/Model/Reactor.cs:73-78 | After one or more ticks in a known mode, the energy output is 5 × speed. |
| `ReactorModel.AfterTicksLast` | AtomicReactorControl/Model/Reactor.cs:33-59 | Tick n + 1 starts from the record that n ticks left. |
| `ReactorModel.Run` | AtomicReactorControl/Model/Reactor.cs:32-59 | The loop as a function of the record, the polls and the subscriber flag: guard first, then the token, then the event entry, then the tick. A run completes at most one tick per poll. Its other properties are stated by the Run* lemmas below. |
| `ReactorModel.RunShape` | AtomicReactorControl/Model/Reactor.cs:29-59 | A run logs one event entry per completed tick, plus one for an iteration that stopped on an unknown mode. Speed, power consumption and work mode are never written. A run stops on an unknown mode only in its first iteration, leaving the record of that failed tick (only the stored energy changed); with an unknown mode no tick ever completes. |
| `ReactorModel.RunStopCause` | AtomicReactorControl/Model/Reactor.cs:33-41 | Cancelled means the guard still held and the token was requested at the check after the last tick. The temperature limit means the final T ≥ 380. Fuel exhaustion means final T < 380 and fuel < 0.05 × speed. |
| `ReactorModel.RunFinal` | AtomicReactorControl/Model/Reactor.cs:33-59 | A run that did not stop on an unknown mode ends on exactly the record its completed ticks produce. |
| `ReactorModel.RunIterations` | AtomicReactorControl/Model/Reactor.cs:33-55 | Every iteration that got past the cancellation check started with the guard holding and the token unset. The event fired in it exactly when a subscriber exists and the temperature at that iteration's start, before its tick, exceeded 300. |
| `ReactorModel.RunStopsAtGuard` | AtomicReactorControl/Model/Reactor.cs:33 | A run ends on a physical limit exactly when its final record fails the loop guard: temperature ≥ 380 or fuel < 0.05 × speed. |
| `ReactorModel.RunStoppedAtEntry` | AtomicReactorControl/Model/Reactor.cs:32-33 | If the guard already fails at entry, there are zero ticks, no event, the record is unchanged, and the cause is the limit that failed. |
| `ReactorModel.RunCancelledAtFirstCheck` | AtomicReactorControl/Model/Reactor.cs:35-41 | A token requested at the first check returns Cancelled with zero ticks, no event and the record untouched. |
| `ReactorModel.RunAfterLimitIsIdle` | AtomicReactorControl/Model/Reactor.cs:33 | Running again on the record left by a run that hit a physical limit applies no tick and reports the same cause. |
| `ReactorModel.RunKeepsFuelNonNegative` | AtomicReactorControl/Model/Reactor.cs:33-53 | A run that completes a tick never leaves the fuel below zero. |
| `ReactorModel.RunFuelBurnt` | AtomicReactorControl/Model/Reactor.cs:33-53 | The ticks of a run together burn at most the initial fuel: ticks copies of 0.05 × speed add up to no more than it. |
| `ReactorModel.RunTickBound` | AtomicReactorControl/Model/Reactor.cs:33-53 | With speed > 0 the number of ticks of any run is at most fuel / (0.05 × speed), and zero when the fuel is negative, however long the token stays unset. |
| `ReactorModel.RunFuelDecreases` | AtomicReactorControl/Model/Reactor.cs:117-120 | With speed > 0 each tick of a run strictly lowers the fuel. |
| `ReactorModel.RunWithoutSplittingOnlyCancels` | AtomicReactorControl/Model/Reactor.cs:33-59 | With speed ≤ 0 in a known mode, a run that starts with the guard holding always ends Cancelled: fuel never drops below one tick's need, and the temperature stays below 380 (HeatWithinWork lowers it by at least 10 per tick, HeatByFormulae sets it to speed − 10), so the guard at line 33 never fails. |
| `ReactorModel.Reactor.constructor` | AtomicReactorControl/Model/Reactor.cs:20-23 | The reactor is bound to the given parameter record. |
| `ReactorModel.Reactor.ReadReactorParams` | AtomicReactorControl/Model/Reactor.cs:80-84 | Writing temperature and fuel back to themselves leaves the whole record unchanged. |
| `ReactorModel.Reactor.SetReactorParams` | AtomicReactorControl/Model/Reactor.cs:73-78 | Only the energy output changes, to 5 × speed. Temperature and fuel keep their values. |
| `ReactorModel.Reactor.ComputeEnergyOutput` | AtomicReactorControl/Model/Reactor.cs:86-89 | Stored energy grows by 5 × speed. Nothing else changes. |
| `ReactorModel.Reactor.ComputeEnergyConsumption` | AtomicReactorControl/Model/Reactor.cs:91-94 | Stored energy drops by the power consumption. Nothing else changes. |
| `ReactorModel.Reactor.ComputeTemperatureIncrease` | AtomicReactorControl/Model/Reactor.cs:96-115 | HeatWithinWork adds the speed to the temperature. HeatByFormulae sets the temperature to the speed. Any other mode fails with the record unchanged. |
| `ReactorModel.Reactor.ComputeFuelConsumption` | AtomicReactorControl/Model/Reactor.cs:117-120 | Fuel drops by 0.05 × speed. Nothing else changes. |
| `ReactorModel.Reactor.ComputeCoolant` | AtomicReactorControl/Model/Reactor.cs:122-125 | Temperature drops by 10. Nothing else changes. |
| `ReactorModel.Reactor.Tick` | AtomicReactorControl/Model/Reactor.cs:49-55 | The in-place steps, in the source's order, leave the record that `Advance` gives. They report failure exactly when `Advance` fails. |
| `ReactorModel.Reactor.ReactorCycle` | AtomicReactorControl/Model/Reactor.cs:29-71 | The while loop leaves the record `Run` gives, returns `Run`'s outcome and logs `Run`'s event firings. All properties proved of `Run` therefore hold of the loop. |

## Left out

- `Thread.Sleep(100)` pacing between iterations. It is timing only, and the model iterates without delay.
- `CancellationToken` as a concurrent signal. The model sees only the value polled at each iteration's check. A run whose token is never requested is modelled only up to the length of `polls`, so that the model proves the loop terminates.
- The `OnHighTemperature` subscribers. Their code is foreign. The model records only whether a subscriber exists and whether the event fired.
- `subscribed`: the subscriber set is fixed for the whole run, although the source re-checks `OnHighTemperature != null` in every iteration and handlers may be attached or detached meanwhile. Neither a handler, which runs before that iteration's tick, nor another thread writes the record while the loop runs.
- `Debug.WriteLine` tracing and the diagnostics after the loop (`> 380`, `<= 0`). They produce output only and change no state.
- IEEE `double` rounding, NaN and the infinities. The model uses exact reals, so `0.05` is exact and guard comparisons near a boundary may differ from the program's floating-point results. No real behaves like NaN: a NaN temperature makes `Temperature < 380` false and stops the loop, and the `> 380` diagnostic after the loop does not print, although the loop stopped on the temperature.
- The build without TRACE, where an unknown mode silently skips the temperature step. Only the throwing build is modelled.
- The `IReactorParams` interface and its backing store. `IReactorParams` is not part of this model. `ReactorParams` is a plain class with mutable fields, and its constructor is the model's own.
- The exception object itself. An escaping `ArgumentOutOfRangeException` is the outcome `InvalidWorkMode`.
