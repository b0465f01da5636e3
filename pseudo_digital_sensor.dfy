/**
 * The simulated digital proximity sensor of
 * src/include/PseudoDigitalProximitySensor.hpp: two callback slots, the last
 * level seen, and a simulated pin that toggles on every 50th read.
 */
module PseudoDigital {
  import opened Wrappers
  import opened SensorEvents
  import opened DigitalEdge

  /** The number of reads between two toggles of the simulated pin. */
  const TogglePeriod: nat := 50

  /** The simulated pin level after `readCount` reads from power-up (low, count 0). */
  function Toggled(readCount: nat): bool
  {
    (readCount / TogglePeriod) % 2 == 1
  }

  /** One more read flips the level exactly when the new count is a multiple of 50. */
  lemma ToggledStep(n: nat)
    ensures Toggled(n + 1) == if (n + 1) % TogglePeriod == 0 then !Toggled(n) else Toggled(n)
  {
    var q, r := n / TogglePeriod, n % TogglePeriod;
    assert n == TogglePeriod * q + r;
    if r == TogglePeriod - 1 {
      assert n + 1 == TogglePeriod * (q + 1);
      assert (n + 1) / TogglePeriod == q + 1 && (n + 1) % TogglePeriod == 0;
    } else {
      assert n + 1 == TogglePeriod * q + (r + 1);
      assert (n + 1) / TogglePeriod == q && (n + 1) % TogglePeriod == r + 1;
    }
  }

  /** Within one period of 50 reads the level holds; it is high in odd periods. */
  lemma LevelHoldsWithinPeriod(period: nat, offset: nat)
    requires offset < TogglePeriod
    ensures Toggled(TogglePeriod * period + offset) == (period % 2 == 1)
  {
    var n := TogglePeriod * period + offset;
    assert n / TogglePeriod == period by {
      assert TogglePeriod * period <= n < TogglePeriod * (period + 1);
    }
  }

  /** The function-static state of readDigitalPin, shared by every instance of the class. */
  class SimulatedPin {
    var state: bool
    var count: int

    ghost predicate Valid()
      reads this
    {
      count >= 0 && state == Toggled(count)
    }

    constructor ()
      ensures Valid() && !state && count == 0
    {
      state, count := false, 0;
    }

    /** readDigitalPin: count the read and toggle on every 50th. */
    method ReadDigitalPin() returns (level: bool)
      requires Valid()
      modifies this
      ensures Valid()
      ensures count == old(count) + 1
      ensures state == if count % TogglePeriod == 0 then !old(state) else old(state)
      ensures level == state
    {
      ToggledStep(count);
      count := count + 1;
      if count % TogglePeriod == 0 {
        state := !state;
      }
      level := state;
    }
  }

  class PseudoDigitalProximitySensor {
    const sensorId: string
    const pinNumber: int
    var lastState: bool
    var proximityDetectedCallback: Option<Callback>
    var proximityLostCallback: Option<Callback>

    constructor (id: string, pin: int)
      ensures sensorId == id && pinNumber == pin
      ensures !lastState && proximityDetectedCallback == None && proximityLostCallback == None
    {
      sensorId, pinNumber := id, pin;
      lastState := false;
      proximityDetectedCallback, proximityLostCallback := None, None;
    }

    /** Only the detected and lost slots exist; other types are logged and ignored. */
    method RegisterCallback(t: SensorEventType, cb: Callback)
      modifies this`proximityDetectedCallback, this`proximityLostCallback
      ensures proximityDetectedCallback == if t == ProximityDetected then Some(cb) else old(proximityDetectedCallback)
      ensures proximityLostCallback == if t == ProximityLost then Some(cb) else old(proximityLostCallback)
    {
      if t == ProximityDetected {
        proximityDetectedCallback := Some(cb);
      } else if t == ProximityLost {
        proximityLostCallback := Some(cb);
      }
    }

    method UnregisterCallback(t: SensorEventType)
      modifies this`proximityDetectedCallback, this`proximityLostCallback
      ensures proximityDetectedCallback == if t == ProximityDetected then None else old(proximityDetectedCallback)
      ensures proximityLostCallback == if t == ProximityLost then None else old(proximityLostCallback)
    {
      if t == ProximityDetected {
        proximityDetectedCallback := None;
      } else if t == ProximityLost {
        proximityLostCallback := None;
      }
    }

    /** readData: the simulated pin's level as 1.0 or 0.0. */
    method ReadData(pin: SimulatedPin) returns (v: real)
      requires pin.Valid()
      modifies pin
      ensures pin.Valid() && pin.count == old(pin.count) + 1
      ensures v == LevelValue(pin.state)
    {
      var level := pin.ReadDigitalPin();
      v := LevelValue(level);
    }

    /** One turn of run() on the level `current`: report a change through its slot, then remember the level. */
    method Step(current: bool) returns (calls: seq<Invocation>)
      modifies this`lastState
      ensures calls == match EdgeEvent(sensorId, old(lastState), current)
                       case None => []
                       case Some(e) => Deliver(if current then proximityDetectedCallback else proximityLostCallback, e)
      ensures lastState == current
    {
      if current != lastState {
        var eventData := SensorEventData(if current then ProximityDetected else ProximityLost, sensorId, LevelValue(current));
        if current {
          calls := Deliver(proximityDetectedCallback, eventData);
        } else {
          calls := Deliver(proximityLostCallback, eventData);
        }
        lastState := current;
      } else {
        calls := [];
      }
    }

    /** One whole turn of run(): read the simulated pin, convert the reading back to a level, and step. */
    method RunOnce(pin: SimulatedPin) returns (calls: seq<Invocation>)
      requires pin.Valid()
      modifies this`lastState, pin
      ensures pin.Valid() && pin.count == old(pin.count) + 1
      ensures lastState == pin.state
      ensures calls == match EdgeEvent(sensorId, old(lastState), pin.state)
                       case None => []
                       case Some(e) => Deliver(if pin.state then proximityDetectedCallback else proximityLostCallback, e)
    {
      var reading := ReadData(pin);
      calls := Step(AsLevel(reading));
    }
  }
}
