/**
 * Client code: concrete runs of the simulation, derived only from the
 * contracts of ReactorParams and Reactor.
 */
module ReactorScenarios {
  import opened ReactorModel

  /** Accumulating heat: one tick from 250 degrees at speed 2 and load 1. */
  method TickWithinWork()
  {
    var rp := new ReactorParams(Params(250.0, 10.0, 0.0, 0.0, 1.0, 2.0, HeatWithinWork));
    var reactor := new Reactor(rp);
    var ok := reactor.Tick();
    assert ok;
    assert rp.storedEnergy == 9.0;
    assert rp.temperature == 242.0;
    assert rp.fuel == 9.9;
    assert rp.energyOutput == 10.0;
  }

  /** Heating by formula overwrites the temperature, then the coolant acts. */
  method TickByFormulae()
  {
    var rp := new ReactorParams(Params(250.0, 10.0, 0.0, 0.0, 1.0, 2.0, HeatByFormulae));
    var reactor := new Reactor(rp);
    var ok := reactor.Tick();
    assert ok;
    assert rp.temperature == -8.0;
    assert rp.fuel == 9.9;
  }

  /** An unknown mode aborts the tick after the stored energy was updated. */
  method TickUnknownMode()
  {
    var rp := new ReactorParams(Params(250.0, 10.0, 0.0, 0.0, 1.0, 2.0, Other));
    var reactor := new Reactor(rp);
    var ok := reactor.Tick();
    assert !ok;
    assert rp.storedEnergy == 9.0;
    assert rp.temperature == 250.0 && rp.fuel == 10.0 && rp.energyOutput == 0.0;
  }

  /** Above the safety threshold with a subscriber the event fires before the tick. */
  method EventBeforeTick()
  {
    var rp := new ReactorParams(Params(305.0, 10.0, 0.0, 0.0, 1.0, 2.0, HeatWithinWork));
    var reactor := new Reactor(rp);
    var outcome, fired := reactor.ReactorCycle([false, true], true);
    assert outcome == Cancelled;
    assert fired == [true];
    assert rp.temperature == 297.0;
  }

  /** Too little fuel for one tick: no tick runs. */
  method NoFuelNoTick()
  {
    var rp := new ReactorParams(Params(250.0, 0.05, 0.0, 0.0, 1.0, 2.0, HeatWithinWork));
    var reactor := new Reactor(rp);
    var outcome, fired := reactor.ReactorCycle([false], true);
    assert outcome == FuelExhausted;
    assert fired == [];
    assert rp.fuel == 0.05 && rp.temperature == 250.0;
  }

  /** At the upper temperature exactly: no tick runs. */
  method AtTemperatureLimit()
  {
    var rp := new ReactorParams(Params(380.0, 10.0, 0.0, 0.0, 1.0, 2.0, HeatWithinWork));
    var reactor := new Reactor(rp);
    var outcome, fired := reactor.ReactorCycle([false], true);
    assert outcome == TemperatureLimitReached;
    assert rp.temperature == 380.0 && rp.fuel == 10.0;
  }

  /** A token requested before the first check: no tick runs. */
  method CancelledAtStart()
  {
    var rp := new ReactorParams(Params(250.0, 10.0, 0.0, 0.0, 1.0, 2.0, HeatWithinWork));
    var reactor := new Reactor(rp);
    var outcome, fired := reactor.ReactorCycle([true], true);
    assert outcome == Cancelled;
    assert rp.Snapshot() == Params(250.0, 10.0, 0.0, 0.0, 1.0, 2.0, HeatWithinWork);
  }
}
