/**
 * The simulated I2C distance sensor of src/include/PseudoI2CProximitySensor.hpp:
 * three callback slots, the last distance seen (-1 before the first reading),
 * a change report for every new distance and a threshold test at 10 cm.
 */
module PseudoI2C {
  import opened Wrappers
  import opened SensorEvents

  /** Closer than this many centimetres counts as near. */
  const NearThreshold: real := 10.0

  /** The initial lastDistance, standing for "no reading yet". */
  const NoReading: real := -1.0

  /** The bounds and the start value of the simulated distance, in centimetres. */
  const MinDistance: int := 0
  const MaxDistance: int := 30
  const StartDistance: int := 20

  /** The simulated distance moves once every this many reads. */
  const DriftPeriod: nat := 30

  /**
   * The events one reading produces, in delivery order: a change report with
   * the new value, then a detection when it crosses below the threshold from at
   * or above it, or a loss when it crosses back from below it (never from the sentinel).
   */
  function Emitted(id: string, last: real, current: real): (r: seq<SensorEventData>)
    ensures r == [] <==> current == last
    ensures |r| <= 2
    ensures r != [] ==> r[0] == SensorEventData(DistanceChanged, id, current)
    ensures (|r| == 2 && r[1].eventType == ProximityDetected) <==> current < NearThreshold && last >= NearThreshold
    ensures (|r| == 2 && r[1].eventType == ProximityLost) <==>
              current >= NearThreshold && last < NearThreshold && last != NoReading
    ensures |r| == 2 ==> r[1].sensorId == id && r[1].value == current
    ensures |r| == 2 ==> r[1].eventType == ProximityDetected || r[1].eventType == ProximityLost
  {
    if current == last then []
    else
      var changed := SensorEventData(DistanceChanged, id, current);
      var crossing :=
        if current < NearThreshold then
          (if last >= NearThreshold then [SensorEventData(ProximityDetected, id, current)] else [])
        else
          (if last < NearThreshold && last != NoReading then [SensorEventData(ProximityLost, id, current)] else []);
      [changed] + crossing
  }

  /** The events of successive readings, starting from `last`. */
  function Trace(id: string, last: real, readings: seq<real>): seq<SensorEventData>
    decreases |readings|
  {
    if readings == [] then [] else Emitted(id, last, readings[0]) + Trace(id, readings[0], readings[1..])
  }

  /** The detected/lost part of one reading's events. */
  function Crossing(last: real, current: real): seq<SensorEventType>
  {
    if current < NearThreshold && last >= NearThreshold then [ProximityDetected]
    else if current >= NearThreshold && last < NearThreshold && last != NoReading then [ProximityLost]
    else []
  }

  lemma EmittedCrossing(id: string, last: real, current: real)
    ensures ProximityTypes(Emitted(id, last, current)) == Crossing(last, current)
  {
    var r := Emitted(id, last, current);
    if |r| == 2 {
      assert r == [r[0]] + [r[1]];
      ProximityTypesAppend([r[0]], [r[1]]);
      assert ProximityTypes([r[0]]) == [];
      assert ProximityTypes([r[1]]) == [r[1].eventType];
    } else if |r| == 1 {
      assert r == [r[0]];
      assert ProximityTypes(r) == [] + ProximityTypes(r[1..]);
    }
  }

  /** The crossing reported for `current` after `last`, given where `last` stands. */
  function FirstAfter(last: real): SensorEventType
  {
    if last < NearThreshold then ProximityLost else ProximityDetected
  }

  /**
   * For real distances (never negative), detections and losses take turns,
   * and once a distance has been seen the first of them moves away from it.
   */
  lemma {:induction false} ProximityTakesTurns(id: string, last: real, readings: seq<real>)
    requires last == NoReading || last >= 0.0
    requires forall k :: 0 <= k < |readings| ==> readings[k] >= 0.0
    ensures Alternates(ProximityTypes(Trace(id, last, readings)))
    ensures last >= 0.0 && ProximityTypes(Trace(id, last, readings)) != [] ==>
              ProximityTypes(Trace(id, last, readings))[0] == FirstAfter(last)
    decreases |readings|
  {
    if readings != [] {
      var c := readings[0];
      var rest := readings[1..];
      assert forall k :: 0 <= k < |rest| ==> rest[k] == readings[k + 1];
      ProximityTakesTurns(id, c, rest);
      var tail := ProximityTypes(Trace(id, c, rest));
      var x := Crossing(last, c);
      ProximityTypesAppend(Emitted(id, last, c), Trace(id, c, rest));
      EmittedCrossing(id, last, c);
      assert ProximityTypes(Trace(id, last, readings)) == x + tail;
      if x != [] {
        assert tail != [] ==> tail[0] == FirstAfter(c) != x[0];
        AlternatesCons(x[0], tail);
        assert x + tail == [x[0]] + tail;
      }
    }
  }

  /** The clamped random walk of readI2CDistance: rand() % 5 - 2 added, then forced into [0, 30]. */
  function Drift(distance: int, rnd: nat): (r: int)
    ensures MinDistance <= r <= MaxDistance
    ensures MinDistance <= distance <= MaxDistance ==> -2 <= r - distance <= 2
    ensures MinDistance + 2 <= distance <= MaxDistance - 2 ==> r == distance + (rnd % 5 - 2)
  {
    var moved := distance + (rnd % 5 - 2);
    var low := if moved < MinDistance then MinDistance else moved;
    if low > MaxDistance then MaxDistance else low
  }

  /** The function-static state of readI2CDistance, shared by every instance of the class. */
  class SimulatedDistance {
    var distance: int
    var count: int

    ghost predicate Valid()
      reads this
    {
      MinDistance <= distance <= MaxDistance && count >= 0
    }

    constructor ()
      ensures Valid() && distance == StartDistance && count == 0
    {
      distance, count := StartDistance, 0;
    }

    /** readI2CDistance: count the read and drift on every 30th; `rnd` stands for rand(). */
    method ReadI2CDistance(rnd: nat) returns (d: real)
      requires Valid()
      modifies this
      ensures Valid()
      ensures count == old(count) + 1
      ensures distance == if count % DriftPeriod == 0 then Drift(old(distance), rnd) else old(distance)
      ensures d == distance as real && 0.0 <= d <= 30.0
    {
      count := count + 1;
      if count % DriftPeriod == 0 {
        distance := Drift(distance, rnd);
      }
      d := distance as real;
    }
  }

  class PseudoI2CProximitySensor {
    const sensorId: string
    const i2cAddress: int
    var lastDistance: real
    var proximityDetectedCallback: Option<Callback>
    var proximityLostCallback: Option<Callback>
    var distanceChangedCallback: Option<Callback>

    constructor (id: string, address: int)
      ensures sensorId == id && i2cAddress == address && lastDistance == NoReading
      ensures proximityDetectedCallback == None && proximityLostCallback == None && distanceChangedCallback == None
    {
      sensorId, i2cAddress := id, address;
      lastDistance := NoReading;
      proximityDetectedCallback, proximityLostCallback, distanceChangedCallback := None, None, None;
    }

    /** The slot an event of type `t` goes through (none for Error). */
    function SlotFor(t: SensorEventType): Option<Callback>
      reads this`proximityDetectedCallback, this`proximityLostCallback, this`distanceChangedCallback
    {
      match t
      case ProximityDetected => proximityDetectedCallback
      case ProximityLost => proximityLostCallback
      case DistanceChanged => distanceChangedCallback
      case Error => None
    }

    /** The calls made for `events`, each through its own slot, in order. */
    function CallsFor(events: seq<SensorEventData>): seq<Invocation>
      reads this`proximityDetectedCallback, this`proximityLostCallback, this`distanceChangedCallback
    {
      if events == [] then [] else Deliver(SlotFor(events[0].eventType), events[0]) + CallsFor(events[1..])
    }

    /** Detected, lost and distance-changed have slots; Error is logged and ignored. */
    method RegisterCallback(t: SensorEventType, cb: Callback)
      modifies this`proximityDetectedCallback, this`proximityLostCallback, this`distanceChangedCallback
      ensures proximityDetectedCallback == if t == ProximityDetected then Some(cb) else old(proximityDetectedCallback)
      ensures proximityLostCallback == if t == ProximityLost then Some(cb) else old(proximityLostCallback)
      ensures distanceChangedCallback == if t == DistanceChanged then Some(cb) else old(distanceChangedCallback)
    {
      if t == ProximityDetected {
        proximityDetectedCallback := Some(cb);
      } else if t == ProximityLost {
        proximityLostCallback := Some(cb);
      } else if t == DistanceChanged {
        distanceChangedCallback := Some(cb);
      }
    }

    method UnregisterCallback(t: SensorEventType)
      modifies this`proximityDetectedCallback, this`proximityLostCallback, this`distanceChangedCallback
      ensures proximityDetectedCallback == if t == ProximityDetected then None else old(proximityDetectedCallback)
      ensures proximityLostCallback == if t == ProximityLost then None else old(proximityLostCallback)
      ensures distanceChangedCallback == if t == DistanceChanged then None else old(distanceChangedCallback)
    {
      if t == ProximityDetected {
        proximityDetectedCallback := None;
      } else if t == ProximityLost {
        proximityLostCallback := None;
      } else if t == DistanceChanged {
        distanceChangedCallback := None;
      }
    }

    /** readData: the simulated distance. */
    method ReadData(sim: SimulatedDistance, rnd: nat) returns (d: real)
      requires sim.Valid()
      modifies sim
      ensures sim.Valid() && sim.count == old(sim.count) + 1
      ensures sim.distance == if sim.count % DriftPeriod == 0 then Drift(old(sim.distance), rnd) else old(sim.distance)
      ensures d == sim.distance as real
    {
      d := sim.ReadI2CDistance(rnd);
    }

    /** One turn of run() on the reading `current`: the events of Emitted, each through its slot; then remember it. */
    method Step(current: real) returns (calls: seq<Invocation>)
      modifies this`lastDistance
      ensures calls == CallsFor(Emitted(sensorId, old(lastDistance), current))
      ensures lastDistance == current
    {
      calls := [];
      if current != lastDistance {
        var eventData := SensorEventData(DistanceChanged, sensorId, current);
        calls := calls + Deliver(distanceChangedCallback, eventData);
        if current < NearThreshold {
          if lastDistance >= NearThreshold {
            eventData := eventData.(eventType := ProximityDetected);
            calls := calls + Deliver(proximityDetectedCallback, eventData);
          }
        } else {
          if lastDistance < NearThreshold && lastDistance != NoReading {
            eventData := eventData.(eventType := ProximityLost);
            calls := calls + Deliver(proximityLostCallback, eventData);
          }
        }
        ghost var events := Emitted(sensorId, lastDistance, current);
        assert CallsFor(events) == calls by {
          assert CallsFor(events) == Deliver(distanceChangedCallback, events[0]) + CallsFor(events[1..]);
          if |events| == 2 {
            assert CallsFor(events[1..]) == Deliver(SlotFor(events[1].eventType), events[1]) + CallsFor(events[1..][1..]);
            assert events[1..][1..] == [];
          } else {
            assert events[1..] == [];
          }
        }
        lastDistance := current;
      } else {
        assert Emitted(sensorId, lastDistance, current) == [];
      }
    }

    /** One whole turn of run(): read the simulated distance and step on it. */
    method RunOnce(sim: SimulatedDistance, rnd: nat) returns (calls: seq<Invocation>)
      requires sim.Valid()
      modifies this`lastDistance, sim
      ensures sim.Valid() && sim.count == old(sim.count) + 1
      ensures lastDistance == sim.distance as real
      ensures calls == CallsFor(Emitted(sensorId, old(lastDistance), sim.distance as real))
    {
      var reading := ReadData(sim, rnd);
      calls := Step(reading);
    }
  }
}
