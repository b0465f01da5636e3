/**
 * The GPIO proximity sensor of src/include/DigitalProximitySensor.hpp: the
 * same change detection as the simulated one, reading the level of a
 * libgpiod line instead (the line itself is outside the model).
 */
module Digital {
  import opened Wrappers
  import opened SensorEvents
  import opened DigitalEdge

  /** readData: a line value of exactly 1 reads as 1.0, anything else as 0.0. */
  function LineReading(lineValue: int): (v: real)
    ensures v == 1.0 <==> lineValue == 1
    ensures v == 0.0 <==> lineValue != 1
    ensures AsLevel(v) <==> lineValue == 1
  {
    LevelValue(1 == lineValue)
  }

  class DigitalProximitySensor {
    const sensorId: string
    const pinNumber: int
    var lastState: bool
    var proximityDetectedCallback: Option<Callback>
    var proximityLostCallback: Option<Callback>

    constructor (id: string, pin: int)
      ensures sensorId == id && pinNumber == pin
      ensures !lastState && proximityDetectedCallback == None && proximityLostCallback == None
    {
      sensorId, pinNumber := id, pin;
      lastState := false;
      proximityDetectedCallback, proximityLostCallback := None, None;
    }

    /** Only the detected and lost slots exist; other types are logged and ignored. */
    method RegisterCallback(t: SensorEventType, cb: Callback)
      modifies this`proximityDetectedCallback, this`proximityLostCallback
      ensures proximityDetectedCallback == if t == ProximityDetected then Some(cb) else old(proximityDetectedCallback)
      ensures proximityLostCallback == if t == ProximityLost then Some(cb) else old(proximityLostCallback)
    {
      if t == ProximityDetected {
        proximityDetectedCallback := Some(cb);
      } else if t == ProximityLost {
        proximityLostCallback := Some(cb);
      }
    }

    method UnregisterCallback(t: SensorEventType)
      modifies this`proximityDetectedCallback, this`proximityLostCallback
      ensures proximityDetectedCallback == if t == ProximityDetected then None else old(proximityDetectedCallback)
      ensures proximityLostCallback == if t == ProximityLost then None else old(proximityLostCallback)
    {
      if t == ProximityDetected {
        proximityDetectedCallback := None;
      } else if t == ProximityLost {
        proximityLostCallback := None;
      }
    }

    /** One turn of run() on the line value read: report a change through its slot, then remember the level. */
    method Step(lineValue: int) returns (calls: seq<Invocation>)
      modifies this`lastState
      ensures calls == match EdgeEvent(sensorId, old(lastState), lineValue == 1)
                       case None => []
                       case Some(e) => Deliver(if lineValue == 1 then proximityDetectedCallback else proximityLostCallback, e)
      ensures lastState == (lineValue == 1)
    {
      var currentState := AsLevel(LineReading(lineValue));
      if currentState != lastState {
        var eventData := SensorEventData(if currentState then ProximityDetected else ProximityLost, sensorId, LevelValue(currentState));
        if currentState {
          calls := Deliver(proximityDetectedCallback, eventData);
        } else {
          calls := Deliver(proximityLostCallback, eventData);
        }
        lastState := currentState;
      } else {
        calls := [];
      }
    }
  }
}
