/**
 * A discrete-time model of the atomic reactor simulation: a mutable parameter
 * record, the five in-place update steps of one tick, and the run loop that
 * repeats ticks until the temperature or the fuel stops it or the host cancels.
 *
 * The pure part (Params, the step functions, Advance, AfterTicks, Run) is the
 * specification; the classes ReactorParams and Reactor are the imperative
 * model, and their methods are proved against that specification.
 */
module ReactorModel {

  /** Tuning constants of the simulation. */
  const ENERGY_OUTPUT_MODIFICATOR: real := 5.0
  const FUEL_EFFICIENCY: real := 0.05
  const COOLANT: real := 10.0
  const HIGH_TEMPERATURE: real := 300.0
  /** The temperature bound of the loop guard (a literal in the loop condition). */
  const UPPER_TEMPERATURE: real := 380.0

  /** The two known work modes, and Other for any value outside them. */
  datatype WorkMode = HeatWithinWork | HeatByFormulae | Other

  datatype Option<T> = None | Some(value: T)

  /** A snapshot of the parameter record. */
  datatype Params = Params(
    temperature: real,
    fuel: real,
    storedEnergy: real,
    energyOutput: real,
    powerConsumption: real,
    speedOfSplitting: real,
    workMode: WorkMode)

  /** The host-owned inputs that neither a tick nor the loop ever writes. */
  predicate SameInputs(p: Params, q: Params)
  {
    && q.powerConsumption == p.powerConsumption
    && q.speedOfSplitting == p.speedOfSplitting
    && q.workMode == p.workMode
  }

  // ---------------------------------------------------------------------
  // The update steps of one tick, on values
  // ---------------------------------------------------------------------

  function EnergyOutputStep(p: Params): (q: Params)
  {
    p.(storedEnergy := p.storedEnergy + ENERGY_OUTPUT_MODIFICATOR * p.speedOfSplitting)
  }

  function EnergyConsumptionStep(p: Params): (q: Params)
  {
    p.(storedEnergy := p.storedEnergy - p.powerConsumption)
  }

  /** None stands for the ArgumentOutOfRangeException of an unknown mode. */
  function TemperatureIncreaseStep(p: Params): (h: Option<Params>)
  {
    match p.workMode
    case HeatWithinWork => Some(p.(temperature := p.temperature + p.speedOfSplitting))
    case HeatByFormulae => Some(p.(temperature := p.speedOfSplitting))
    case Other => None
  }

  function FuelConsumptionStep(p: Params): (q: Params)
  {
    p.(fuel := p.fuel - FUEL_EFFICIENCY * p.speedOfSplitting)
  }

  function CoolantStep(p: Params): (q: Params)
  {
    p.(temperature := p.temperature - COOLANT)
  }

  function SetParamsStep(p: Params): (q: Params)
  {
    p.(energyOutput := ENERGY_OUTPUT_MODIFICATOR * p.speedOfSplitting)
  }

  /**
   * The result of one tick: Ticked with the new record, or Failed with the
   * record as it was when the unknown work mode aborted the tick.
   */
  datatype TickResult = Ticked(state: Params) | Failed(state: Params)

  /** One tick: the steps in the order the simulation applies them. */
  function Advance(p: Params): (r: TickResult)
    ensures r.Failed? <==> p.workMode == Other
    ensures SameInputs(p, r.state)
    // stored energy changes by the net output whatever the mode, even when the tick fails
    ensures r.state.storedEnergy
      == p.storedEnergy + ENERGY_OUTPUT_MODIFICATOR * p.speedOfSplitting - p.powerConsumption
    ensures r.Ticked? ==> r.state.fuel == p.fuel - FUEL_EFFICIENCY * p.speedOfSplitting
    ensures r.Ticked? ==> r.state.energyOutput == ENERGY_OUTPUT_MODIFICATOR * p.speedOfSplitting
    ensures p.workMode == HeatWithinWork ==>
      r.state.temperature == p.temperature + p.speedOfSplitting - COOLANT
    ensures p.workMode == HeatByFormulae ==>
      r.state.temperature == p.speedOfSplitting - COOLANT
    // a failed tick has touched nothing but the stored energy
    ensures r.Failed? ==>
      r.state.temperature == p.temperature && r.state.fuel == p.fuel
      && r.state.energyOutput == p.energyOutput
  {
    var e := EnergyConsumptionStep(EnergyOutputStep(p));
    match TemperatureIncreaseStep(e)
    case None => Failed(e)
    case Some(h) => Ticked(SetParamsStep(CoolantStep(FuelConsumptionStep(h))))
  }

  /**
   * The record after n ticks. Only meaningful for a known mode: for Other it
   * goes on applying Advance after the first failed tick, which the simulation
   * never does (a run with an unknown mode completes no tick).
   */
  function AfterTicks(p: Params, n: nat): (q: Params)
    decreases n
  {
    if n == 0 then p else AfterTicks(Advance(p).state, n - 1)
  }

  /** Multiplying by n is adding once and multiplying by n - 1. */
  lemma PeelOne(n: nat, x: real)
    requires n > 0
    ensures (n as real) * x == x + ((n - 1) as real) * x
  {
  }

  /** n copies of x added up: the effect of n ticks that each add x. */
  function Repeat(n: nat, x: real): (sum: real)
  {
    if n == 0 then 0.0 else x + Repeat(n - 1, x)
  }

  lemma {:induction false} RepeatIsProduct(n: nat, x: real)
    ensures Repeat(n, x) == (n as real) * x
  {
    if n > 0 {
      RepeatIsProduct(n - 1, x);
      PeelOne(n, x);
    }
  }

  lemma {:induction false} AfterTicksInputs(p: Params, n: nat)
    decreases n
    ensures SameInputs(p, AfterTicks(p, n))
  {
    if n > 0 {
      AfterTicksInputs(Advance(p).state, n - 1);
    }
  }

  /** The state before tick n + 1 is the state after n ticks. */
  lemma {:induction false} AfterTicksLast(p: Params, n: nat)
    decreases n
    ensures AfterTicks(p, n + 1) == Advance(AfterTicks(p, n)).state
  {
    if n > 0 {
      AfterTicksLast(Advance(p).state, n - 1);
    }
  }

  /** n successful ticks burn n times the fuel of one tick. */
  lemma {:induction false} AfterTicksFuel(p: Params, n: nat)
    requires p.workMode != Other
    decreases n
    ensures AfterTicks(p, n).fuel == p.fuel - Repeat(n, FUEL_EFFICIENCY * p.speedOfSplitting)
  {
    if n > 0 {
      AfterTicksFuel(Advance(p).state, n - 1);
    }
  }

  /** n successful ticks add n times the net energy of one tick. */
  lemma {:induction false} AfterTicksStoredEnergy(p: Params, n: nat)
    requires p.workMode != Other
    decreases n
    ensures AfterTicks(p, n).storedEnergy
      == p.storedEnergy + Repeat(n, ENERGY_OUTPUT_MODIFICATOR * p.speedOfSplitting - p.powerConsumption)
  {
    if n > 0 {
      AfterTicksStoredEnergy(Advance(p).state, n - 1);
    }
  }

  /**
   * Accumulating heat drifts by speed minus coolant per tick; heating by
   * formula pins the temperature to speed minus coolant from the first tick on.
   */
  lemma {:induction false} AfterTicksTemperature(p: Params, n: nat)
    requires p.workMode != Other
    decreases n
    ensures p.workMode == HeatWithinWork ==>
      AfterTicks(p, n).temperature == p.temperature + Repeat(n, p.speedOfSplitting - COOLANT)
    ensures p.workMode == HeatByFormulae && n > 0 ==>
      AfterTicks(p, n).temperature == p.speedOfSplitting - COOLANT
  {
    if n > 0 {
      AfterTicksTemperature(Advance(p).state, n - 1);
    }
  }

  lemma {:induction false} AfterTicksEnergyOutput(p: Params, n: nat)
    requires p.workMode != Other && n > 0
    decreases n
    ensures AfterTicks(p, n).energyOutput == ENERGY_OUTPUT_MODIFICATOR * p.speedOfSplitting
  {
    if n > 1 {
      AfterTicksEnergyOutput(Advance(p).state, n - 1);
    }
  }

  // ---------------------------------------------------------------------
  // The run loop, on values
  // ---------------------------------------------------------------------

  /** The loop guard: below the upper temperature and fuel for one more tick. */
  predicate Running(p: Params)
  {
    p.temperature < UPPER_TEMPERATURE && p.fuel >= FUEL_EFFICIENCY * p.speedOfSplitting
  }

  /**
   * The cancellation token as seen at the check of iteration i: polls[i], and
   * requested for every iteration past the end of polls.
   */
  predicate CancelRequested(polls: seq<bool>, i: nat)
  {
    i >= |polls| || polls[i]
  }

  /** Why a run stopped. */
  datatype Outcome = Cancelled | TemperatureLimitReached | FuelExhausted | InvalidWorkMode

  /**
   * The result of a run: why it stopped, the final record, the number of
   * completed ticks, and for each iteration that got past the cancellation
   * check whether the high-temperature event fired in it.
   */
  datatype RunResult = RunResult(outcome: Outcome, final: Params, ticks: nat, fired: seq<bool>)

  /**
   * The run loop from record p: check the guard, check the token, fire the
   * event, tick, and go on with the next poll.
   */
  function Run(p: Params, polls: seq<bool>, subscribed: bool): (r: RunResult)
    decreases |polls|
    ensures r.ticks <= |polls|
  {
    if !Running(p) then
      RunResult(if p.temperature >= UPPER_TEMPERATURE then TemperatureLimitReached else FuelExhausted,
                p, 0, [])
    else if CancelRequested(polls, 0) then
      RunResult(Cancelled, p, 0, [])
    else
      var fire := subscribed && p.temperature > HIGH_TEMPERATURE;
      match Advance(p)
      case Failed(q) => RunResult(InvalidWorkMode, q, 0, [fire])
      case Ticked(q) =>
        var rest := Run(q, polls[1..], subscribed);
        RunResult(rest.outcome, rest.final, rest.ticks + 1, [fire] + rest.fired)
  }

  /**
   * One event log entry per iteration that got past the token check; inputs
   * never written; an unknown mode stops the first iteration that reaches the
   * tick, leaving the record with only the stored energy changed.
   */
  lemma {:induction false} RunShape(p: Params, polls: seq<bool>, subscribed: bool)
    decreases |polls|
    ensures var r := Run(p, polls, subscribed);
      && |r.fired| == r.ticks + (if r.outcome == InvalidWorkMode then 1 else 0)
      && SameInputs(p, r.final)
      && (r.outcome == InvalidWorkMode ==>
            p.workMode == Other && r.ticks == 0 && r.final == Advance(p).state)
      && (p.workMode == Other ==> r.ticks == 0)
  {
    if Running(p) && !CancelRequested(polls, 0) && p.workMode != Other {
      RunShape(Advance(p).state, polls[1..], subscribed);
    }
  }

  /**
   * Each outcome means what its name says: a cancelled run was stopped by
   * the token while the guard still held; a run that hit a limit ended on a
   * record failing the guard, the temperature checked first.
   */
  lemma {:induction false} RunStopCause(p: Params, polls: seq<bool>, subscribed: bool)
    decreases |polls|
    ensures var r := Run(p, polls, subscribed);
      && (r.outcome == Cancelled ==> Running(r.final) && CancelRequested(polls, r.ticks))
      && (r.outcome == TemperatureLimitReached ==> r.final.temperature >= UPPER_TEMPERATURE)
      && (r.outcome == FuelExhausted ==>
            r.final.temperature < UPPER_TEMPERATURE
            && r.final.fuel < FUEL_EFFICIENCY * r.final.speedOfSplitting)
  {
    if Running(p) && !CancelRequested(polls, 0) && p.workMode != Other {
      RunStopCause(Advance(p).state, polls[1..], subscribed);
    }
  }

  /** A run that did not stop on an unknown mode ends on the record of its ticks. */
  lemma {:induction false} RunFinal(p: Params, polls: seq<bool>, subscribed: bool)
    decreases |polls|
    ensures var r := Run(p, polls, subscribed);
      r.outcome != InvalidWorkMode ==> r.final == AfterTicks(p, r.ticks)
  {
    if Running(p) && !CancelRequested(polls, 0) && p.workMode != Other {
      RunFinal(Advance(p).state, polls[1..], subscribed);
    }
  }

  /**
   * Every iteration that got past the cancellation check started with the
   * guard holding and the token unset, and fired the event exactly when a
   * subscriber exists and the temperature before its tick exceeded the
   * safety threshold.
   */
  lemma {:induction false} RunIterations(p: Params, polls: seq<bool>, subscribed: bool)
    decreases |polls|
    ensures var r := Run(p, polls, subscribed);
      forall i :: 0 <= i < |r.fired| ==>
        && Running(AfterTicks(p, i))
        && !CancelRequested(polls, i)
        && (r.fired[i] <==> subscribed && AfterTicks(p, i).temperature > HIGH_TEMPERATURE)
  {
    if Running(p) && !CancelRequested(polls, 0) && p.workMode != Other {
      var q := Advance(p).state;
      RunIterations(q, polls[1..], subscribed);
      var r := Run(p, polls, subscribed);
      forall i | 0 <= i < |r.fired|
        ensures Running(AfterTicks(p, i)) && !CancelRequested(polls, i)
        ensures r.fired[i] <==> subscribed && AfterTicks(p, i).temperature > HIGH_TEMPERATURE
      {
        if i > 0 {
          assert AfterTicks(p, i) == AfterTicks(q, i - 1);
        }
      }
    }
  }

  lemma ConcatAssoc(a: seq<bool>, b: seq<bool>, c: seq<bool>)
    ensures (a + b) + c == a + (b + c)
  {
  }

  /** One iteration of the loop that completes its tick, then the rest of the run. */
  lemma RunUnfold(p: Params, polls: seq<bool>, subscribed: bool)
    requires Running(p) && !CancelRequested(polls, 0) && p.workMode != Other
    ensures var rest := Run(Advance(p).state, polls[1..], subscribed);
      Run(p, polls, subscribed)
        == RunResult(rest.outcome, rest.final, rest.ticks + 1,
                     [subscribed && p.temperature > HIGH_TEMPERATURE] + rest.fired)
  {
  }

  /** A run ends on a physical limit exactly when its final record fails the guard. */
  lemma RunStopsAtGuard(p: Params, polls: seq<bool>, subscribed: bool)
    ensures var r := Run(p, polls, subscribed);
      r.outcome in {TemperatureLimitReached, FuelExhausted} <==> !Running(r.final)
  {
    RunStopCause(p, polls, subscribed);
    RunShape(p, polls, subscribed);
    var r := Run(p, polls, subscribed);
    if r.outcome == InvalidWorkMode {
      assert Running(p);
      assert r.final.temperature == p.temperature && r.final.fuel == p.fuel;
    }
  }

  /** A record that already fails the guard gets no tick, whatever the token. */
  lemma RunStoppedAtEntry(p: Params, polls: seq<bool>, subscribed: bool)
    requires !Running(p)
    ensures var r := Run(p, polls, subscribed);
      && r.ticks == 0 && r.final == p && r.fired == []
      && r.outcome == (if p.temperature >= UPPER_TEMPERATURE then TemperatureLimitReached
                       else FuelExhausted)
  {
  }

  /** A token requested at the first check leaves the record untouched. */
  lemma RunCancelledAtFirstCheck(p: Params, polls: seq<bool>, subscribed: bool)
    requires Running(p) && CancelRequested(polls, 0)
    ensures Run(p, polls, subscribed) == RunResult(Cancelled, p, 0, [])
  {
  }

  /**
   * Starting again on the record a run left behind after hitting a physical
   * limit applies no further tick and reports the same cause.
   */
  lemma RunAfterLimitIsIdle(p: Params, polls: seq<bool>, subscribed: bool,
                            polls': seq<bool>, subscribed': bool)
    requires Run(p, polls, subscribed).outcome in {TemperatureLimitReached, FuelExhausted}
    ensures var r := Run(p, polls, subscribed);
      Run(r.final, polls', subscribed') == RunResult(r.outcome, r.final, 0, [])
  {
    RunStopCause(p, polls, subscribed);
  }

  /** The loop never burns fuel below zero: each tick had fuel for itself. */
  lemma RunKeepsFuelNonNegative(p: Params, polls: seq<bool>, subscribed: bool)
    requires Run(p, polls, subscribed).ticks > 0
    ensures Run(p, polls, subscribed).final.fuel >= 0.0
  {
    var r := Run(p, polls, subscribed);
    var n := r.ticks - 1;
    RunShape(p, polls, subscribed);
    RunFinal(p, polls, subscribed);
    RunIterations(p, polls, subscribed);
    assert Running(AfterTicks(p, n));
    AfterTicksLast(p, n);
    AfterTicksInputs(p, n);
  }

  /** The fuel of all the ticks of a run together is at most the initial fuel. */
  lemma RunFuelBurnt(p: Params, polls: seq<bool>, subscribed: bool)
    requires Run(p, polls, subscribed).ticks > 0
    ensures Repeat(Run(p, polls, subscribed).ticks, FUEL_EFFICIENCY * p.speedOfSplitting) <= p.fuel
  {
    var r := Run(p, polls, subscribed);
    RunKeepsFuelNonNegative(p, polls, subscribed);
    RunShape(p, polls, subscribed);
    RunFinal(p, polls, subscribed);
    AfterTicksFuel(p, r.ticks);
  }

  lemma QuotientBound(n: nat, x: real, f: real)
    requires x > 0.0 && Repeat(n, x) <= f
    ensures (n as real) <= f / x
  {
    RepeatIsProduct(n, x);
  }

  /**
   * With a positive speed a run has at most initial fuel / (fuel of one tick)
   * ticks, however long the host leaves the token unset.
   */
  lemma RunTickBound(p: Params, polls: seq<bool>, subscribed: bool)
    requires p.speedOfSplitting > 0.0
    ensures (Run(p, polls, subscribed).ticks as real)
      <= if p.fuel < 0.0 then 0.0 else p.fuel / (FUEL_EFFICIENCY * p.speedOfSplitting)
  {
    var r := Run(p, polls, subscribed);
    if r.ticks > 0 {
      RunFuelBurnt(p, polls, subscribed);
      QuotientBound(r.ticks, FUEL_EFFICIENCY * p.speedOfSplitting, p.fuel);
    }
  }

  /** With a positive speed every tick of a run strictly lowers the fuel. */
  lemma RunFuelDecreases(p: Params, polls: seq<bool>, subscribed: bool, i: nat)
    requires p.speedOfSplitting > 0.0
    requires i < Run(p, polls, subscribed).ticks
    ensures AfterTicks(p, i + 1).fuel < AfterTicks(p, i).fuel
  {
    RunShape(p, polls, subscribed);
    AfterTicksLast(p, i);
    AfterTicksInputs(p, i);
  }

  /**
   * Without a positive speed the guard never fails in a known mode: fuel
   * does not drop below one tick's need and the temperature moves down (or
   * is pinned below zero), so only the token stops a run that starts.
   */
  lemma {:induction false} RunWithoutSplittingOnlyCancels(p: Params, polls: seq<bool>, subscribed: bool)
    requires p.speedOfSplitting <= 0.0 && p.workMode != Other && Running(p)
    decreases |polls|
    ensures Run(p, polls, subscribed).outcome == Cancelled
  {
    if !CancelRequested(polls, 0) {
      var q := Advance(p).state;
      assert Running(q);
      RunWithoutSplittingOnlyCancels(q, polls[1..], subscribed);
    }
  }

  // ---------------------------------------------------------------------
  // The mutable parameter record and the simulation object
  // ---------------------------------------------------------------------

  /** The host-owned parameter record that the simulation updates in place. */
  class ReactorParams {
    var temperature: real
    var fuel: real
    var storedEnergy: real
    var energyOutput: real
    var powerConsumption: real
    var speedOfSplitting: real
    var workMode: WorkMode

    constructor (p: Params)
      ensures Snapshot() == p
    {
      temperature := p.temperature;
      fuel := p.fuel;
      storedEnergy := p.storedEnergy;
      energyOutput := p.energyOutput;
      powerConsumption := p.powerConsumption;
      speedOfSplitting := p.speedOfSplitting;
      workMode := p.workMode;
    }

    function Snapshot(): (p: Params)
      reads this
    {
      Params(temperature, fuel, storedEnergy, energyOutput, powerConsumption, speedOfSplitting, workMode)
    }
  }

  /** The simulation, bound for its lifetime to one parameter record. */
  class Reactor {
    const params: ReactorParams

    constructor (reactorParams: ReactorParams)
      ensures params == reactorParams
    {
      params := reactorParams;
    }

    /** Writes temperature and fuel back to themselves: no value changes. */
    method ReadReactorParams()
      modifies params
      ensures params.Snapshot() == old(params.Snapshot())
    {
      params.temperature := params.temperature;
      params.fuel := params.fuel;
    }

    /** Publishes the energy output; temperature and fuel are written back unchanged. */
    method SetReactorParams()
      modifies params
      ensures params.Snapshot() == SetParamsStep(old(params.Snapshot()))
    {
      params.temperature := params.temperature;
      params.fuel := params.fuel;
      params.energyOutput := ENERGY_OUTPUT_MODIFICATOR * params.speedOfSplitting;
    }

    method ComputeEnergyOutput()
      modifies params
      ensures params.Snapshot() == EnergyOutputStep(old(params.Snapshot()))
    {
      params.storedEnergy := params.storedEnergy + ENERGY_OUTPUT_MODIFICATOR * params.speedOfSplitting;
    }

    method ComputeEnergyConsumption()
      modifies params
      ensures params.Snapshot() == EnergyConsumptionStep(old(params.Snapshot()))
    {
      params.storedEnergy := params.storedEnergy - params.powerConsumption;
    }

    /** ok is false where the source throws for an unknown mode; nothing is written then. */
    method ComputeTemperatureIncrease() returns (ok: bool)
      modifies params
      ensures ok <==> old(params.workMode) != Other
      ensures TemperatureIncreaseStep(old(params.Snapshot()))
        == if ok then Some(params.Snapshot()) else None
      ensures !ok ==> params.Snapshot() == old(params.Snapshot())
    {
      if params.workMode == HeatWithinWork {
        params.temperature := params.temperature + params.speedOfSplitting;
        ok := true;
      } else if params.workMode == HeatByFormulae {
        params.temperature := params.speedOfSplitting;
        ok := true;
      } else {
        ok := false;
      }
    }

    method ComputeFuelConsumption()
      modifies params
      ensures params.Snapshot() == FuelConsumptionStep(old(params.Snapshot()))
    {
      params.fuel := params.fuel - FUEL_EFFICIENCY * params.speedOfSplitting;
    }

    method ComputeCoolant()
      modifies params
      ensures params.Snapshot() == CoolantStep(old(params.Snapshot()))
    {
      params.temperature := params.temperature - COOLANT;
    }

    /**
     * The body of one loop iteration after the event check: the read-back, the
     * five steps and the publication of the output. ok is false when the
     * unknown work mode aborted it after the energy steps.
     */
    method Tick() returns (ok: bool)
      modifies params
      ensures ok <==> Advance(old(params.Snapshot())).Ticked?
      ensures params.Snapshot() == Advance(old(params.Snapshot())).state
    {
      ReadReactorParams();
      ComputeEnergyOutput();
      ComputeEnergyConsumption();
      ok := ComputeTemperatureIncrease();
      if !ok {
        return;
      }
      ComputeFuelConsumption();
      ComputeCoolant();
      SetReactorParams();
    }

    /**
     * The run loop. polls[i] is the cancellation token at the check of
     * iteration i (requested once polls is used up); subscribed says whether
     * the high-temperature event has a subscriber. fired logs, per iteration
     * that got past the cancellation check, whether the event fired.
     */
    method ReactorCycle(polls: seq<bool>, subscribed: bool) returns (outcome: Outcome, ghost fired: seq<bool>)
      modifies params
      ensures var r := Run(old(params.Snapshot()), polls, subscribed);
        outcome == r.outcome && params.Snapshot() == r.final && fired == r.fired
    {
      ghost var start := params.Snapshot();
      ReadReactorParams();
      var iteration := 0;
      fired := [];
      while params.temperature < UPPER_TEMPERATURE
            && params.fuel >= FUEL_EFFICIENCY * params.speedOfSplitting
        invariant iteration <= |polls|
        invariant var rest := Run(params.Snapshot(), polls[iteration..], subscribed);
          Run(start, polls, subscribed)
            == RunResult(rest.outcome, rest.final, rest.ticks + iteration, fired + rest.fired)
        decreases |polls| - iteration
      {
        if iteration >= |polls| || polls[iteration] {
          outcome := Cancelled;
          return;
        }
        ghost var fire := params.temperature > HIGH_TEMPERATURE && subscribed;
        ghost var before := fired;
        fired := fired + [fire];
        ghost var current := params.Snapshot();
        var ok := Tick();
        if !ok {
          outcome := InvalidWorkMode;
          return;
        }
        assert polls[iteration..][1..] == polls[iteration + 1..];
        RunUnfold(current, polls[iteration..], subscribed);
        ghost var rest := Run(params.Snapshot(), polls[iteration + 1..], subscribed);
        ConcatAssoc(before, [fire], rest.fired);
        iteration := iteration + 1;
      }
      outcome := if params.temperature >= UPPER_TEMPERATURE then TemperatureLimitReached else FuelExhausted;
    }
  }
}
