/**
 * The event manager of src/include/EventManager.hpp: a list of sensors, a
 * registry sensorId -> (event type -> callback), and one FIFO queue of
 * events between the sensors (producers) and the single dispatch loop.
 */
module EventManagement {
  import opened Wrappers
  import opened SensorEvents
  import PseudoDigital
  import Digital
  import PseudoI2C

  /** The callbacks registered for one sensor, by event type. */
  type CallbackMap = map<SensorEventType, Callback>

  /** The callback registry, by sensor id. */
  type Registry = map<string, CallbackMap>

  /** The sensor variants the manager can hold. */
  datatype SensorKind = PseudoDigitalKind | DigitalKind | PseudoI2CKind

  /** A registered sensor, by id and variant (the source holds a shared pointer). */
  datatype SensorHandle = SensorHandle(id: string, kind: SensorKind)

  /** One registerCallback call that the manager makes on a sensor. */
  datatype Registration = Registration(sensor: SensorHandle, eventType: SensorEventType, callback: Callback)

  /** What one turn of the processing loop did. */
  datatype StepResult =
    | Waiting                          // the queue was empty: the loop blocks
    | Dropped(event: SensorEventData)  // nothing registered for the event: logged and dropped
    | Delivered(call: Invocation)      // the registered callback was called with the event

  /** The entry for (id, t), if any, without creating one. */
  function Lookup(reg: Registry, id: string, t: SensorEventType): Option<Callback>
  {
    if id in reg && t in reg[id] then Some(reg[id][t]) else None
  }

  /** The inner map for `id`, empty when there is none (what operator[] yields). */
  function Inner(reg: Registry, id: string): CallbackMap
  {
    if id in reg then reg[id] else map[]
  }

  /** registerCallbackForSensor: sets the (id, t) entry, replacing an earlier one. */
  function Register(reg: Registry, id: string, t: SensorEventType, cb: Callback): (r: Registry)
    ensures Lookup(r, id, t) == Some(cb)
    ensures forall id', t' :: (id', t') != (id, t) ==> Lookup(r, id', t') == Lookup(reg, id', t')
    ensures r.Keys == reg.Keys + {id}
  {
    reg[id := Inner(reg, id)[t := cb]]
  }

  /** unregisterCallbackForSensor: removes the (id, t) entry; operator[] leaves a possibly empty map for `id`. */
  function Unregister(reg: Registry, id: string, t: SensorEventType): (r: Registry)
    ensures Lookup(r, id, t) == None
    ensures forall id', t' :: (id', t') != (id, t) ==> Lookup(r, id', t') == Lookup(reg, id', t')
    ensures r.Keys == reg.Keys + {id}
  {
    reg[id := Inner(reg, id) - {t}]
  }

  /** dispatch: calls the callback registered for the event's sensor and type, or drops the event. */
  function Dispatch(reg: Registry, e: SensorEventData): (r: StepResult)
    ensures r.Delivered? <==> Lookup(reg, e.sensorId, e.eventType).Some?
    ensures r.Delivered? ==> r.call == Invocation(Lookup(reg, e.sensorId, e.eventType).value, e)
    ensures r.Dropped? ==> r.event == e
    ensures !r.Waiting?
  {
    match Lookup(reg, e.sensorId, e.eventType)
    case Some(cb) => Delivered(Invocation(cb, e))
    case None => Dropped(e)
  }

  /** The event a non-waiting step handled. */
  function Handled(r: StepResult): SensorEventData
    requires !r.Waiting?
  {
    if r.Dropped? then r.event else r.call.event
  }

  /** The dispatch loop run on `queue` until it is empty. */
  function Drain(reg: Registry, queue: seq<SensorEventData>): seq<StepResult>
  {
    if queue == [] then [] else [Dispatch(reg, queue[0])] + Drain(reg, queue[1..])
  }

  /** Draining handles every queued event once, in queue order, and each one is delivered exactly when registered. */
  lemma {:induction false} DrainIsFifo(reg: Registry, queue: seq<SensorEventData>)
    ensures |Drain(reg, queue)| == |queue|
    ensures forall k :: 0 <= k < |queue| ==> !Drain(reg, queue)[k].Waiting? && Handled(Drain(reg, queue)[k]) == queue[k]
    ensures forall k :: 0 <= k < |queue| ==>
              (Drain(reg, queue)[k].Delivered? <==> Lookup(reg, queue[k].sensorId, queue[k].eventType).Some?)
  {
    if queue != [] {
      DrainIsFifo(reg, queue[1..]);
      var rest := Drain(reg, queue[1..]);
      assert Drain(reg, queue) == [Dispatch(reg, queue[0])] + rest;
      forall k | 1 <= k < |queue|
        ensures Drain(reg, queue)[k] == rest[k - 1] && queue[k] == queue[1..][k - 1]
      {
      }
    }
  }

  /** A later registration for the same (id, t) overrides an earlier one. */
  lemma LastRegistrationWins(reg: Registry, id: string, t: SensorEventType, first: Callback, second: Callback)
    ensures Register(Register(reg, id, t, first), id, t, second) == Register(reg, id, t, second)
  {
    assert Inner(Register(reg, id, t, first), id)[t := second] == Inner(reg, id)[t := second];
  }

  /** Unregistering undoes a registration, up to the (possibly empty) inner map that remains. */
  lemma UnregisterUndoesRegister(reg: Registry, id: string, t: SensorEventType, cb: Callback)
    ensures Unregister(Register(reg, id, t, cb), id, t) == Unregister(reg, id, t)
  {
    assert Inner(Register(reg, id, t, cb), id) - {t} == Inner(reg, id) - {t};
  }

  /** The registrations made for one sensor by its thread in startSensorThreads. */
  function WiringFor(s: SensorHandle): seq<Registration>
  {
    [Registration(s, ProximityDetected, PostEvent),
     Registration(s, ProximityLost, PostEvent),
     Registration(s, DistanceChanged, PostEvent)]
  }

  class EventManager {
    var sensors: seq<SensorHandle>
    var callbacks: Registry
    var queue: seq<SensorEventData>
    /** Every event ever posted, and every event taken off the queue, in order. */
    ghost var posted: seq<SensorEventData>
    ghost var dispatched: seq<SensorEventData>

    /** The queue is a single global FIFO: what was taken off followed by what is left is what was posted. */
    ghost predicate Valid()
      reads this
    {
      posted == dispatched + queue
    }

    constructor ()
      ensures Valid()
      ensures sensors == [] && callbacks == map[] && queue == []
      ensures posted == [] && dispatched == []
    {
      sensors, callbacks, queue := [], map[], [];
      posted, dispatched := [], [];
    }

    method RegisterSensor(s: SensorHandle)
      modifies this`sensors
      ensures sensors == old(sensors) + [s]
    {
      sensors := sensors + [s];
    }

    method RegisterCallbackForSensor(id: string, t: SensorEventType, cb: Callback)
      modifies this`callbacks
      ensures callbacks == Register(old(callbacks), id, t, cb)
    {
      var inner := if id in callbacks then callbacks[id] else map[];
      callbacks := callbacks[id := inner[t := cb]];
    }

    method UnregisterCallbackForSensor(id: string, t: SensorEventType)
      modifies this`callbacks
      ensures callbacks == Unregister(old(callbacks), id, t)
    {
      var inner := if id in callbacks then callbacks[id] else map[];
      callbacks := callbacks[id := inner - {t}];
    }

    /** postEvent: one event at the back of the queue; the registry is untouched. */
    method PostEvent(e: SensorEventData)
      requires Valid()
      modifies this`queue, this`posted
      ensures Valid()
      ensures queue == old(queue) + [e]
      ensures posted == old(posted) + [e]
    {
      queue := queue + [e];
      posted := posted + [e];
    }

    /** One turn of eventProcessingLoop: take the front event and dispatch it; block on an empty queue. */
    method ProcessNext() returns (r: StepResult)
      requires Valid()
      modifies this`queue, this`dispatched
      ensures Valid()
      ensures old(queue) == [] ==> r == Waiting && queue == [] && dispatched == old(dispatched)
      ensures old(queue) != [] ==>
                && queue == old(queue)[1..]
                && dispatched == old(dispatched) + [old(queue)[0]]
                && r == Dispatch(callbacks, old(queue)[0])
    {
      if queue == [] {
        r := Waiting;
      } else {
        var e := queue[0];
        queue := queue[1..];
        dispatched := dispatched + [e];
        r := Dispatch(callbacks, e);
      }
    }

    /** The callback wiring of startSensorThreads: each sensor gets the forwarder for every type but Error. */
    method StartSensorThreads() returns (regs: seq<Registration>)
      ensures |regs| == 3 * |sensors|
      ensures forall i :: 0 <= i < |sensors| ==> regs[3 * i..3 * i + 3] == WiringFor(sensors[i])
      ensures forall k :: 0 <= k < |regs| ==> regs[k].callback == Callback.PostEvent && regs[k].eventType != Error
    {
      regs := [];
      for n := 0 to |sensors|
        invariant |regs| == 3 * n
        invariant forall i :: 0 <= i < n ==> regs[3 * i..3 * i + 3] == WiringFor(sensors[i])
        invariant forall k :: 0 <= k < |regs| ==> regs[k].callback == Callback.PostEvent && regs[k].eventType != Error
      {
        regs := regs + WiringFor(sensors[n]);
        assert regs[3 * n..3 * n + 3] == WiringFor(sensors[n]);
      }
    }
  }

  /**
   * Events posted in order E1, E2, E3 are dispatched in that order, each to
   * the callback registered for it, or dropped when there is none.
   */
  method PostThenProcess(m: EventManager, e1: SensorEventData, e2: SensorEventData, e3: SensorEventData)
    returns (r1: StepResult, r2: StepResult, r3: StepResult)
    requires m.Valid() && m.queue == []
    modifies m`queue, m`posted, m`dispatched
    ensures m.Valid() && m.queue == []
    ensures m.dispatched == old(m.dispatched) + [e1, e2, e3]
    ensures r1 == Dispatch(m.callbacks, e1) && r2 == Dispatch(m.callbacks, e2) && r3 == Dispatch(m.callbacks, e3)
  {
    m.PostEvent(e1);
    m.PostEvent(e2);
    m.PostEvent(e3);
    r1 := m.ProcessNext();
    r2 := m.ProcessNext();
    r3 := m.ProcessNext();
  }

  /**
   * The registrations of one sensor thread, `WiringFor` its handle, applied
   * to a simulated digital sensor: each registration for detected or lost
   * lands in that slot, so both forward to postEvent; the distance-changed
   * registration is ignored, as the sensor has no slot for it.
   */
  method WirePseudoDigital(sensor: PseudoDigital.PseudoDigitalProximitySensor)
    modifies sensor`proximityDetectedCallback, sensor`proximityLostCallback
    ensures forall r :: r in WiringFor(SensorHandle(sensor.sensorId, PseudoDigitalKind)) ==>
              && (r.eventType == ProximityDetected ==> sensor.proximityDetectedCallback == Some(r.callback))
              && (r.eventType == ProximityLost ==> sensor.proximityLostCallback == Some(r.callback))
    ensures sensor.proximityDetectedCallback == Some(Callback.PostEvent)
    ensures sensor.proximityLostCallback == Some(Callback.PostEvent)
  {
    var w := WiringFor(SensorHandle(sensor.sensorId, PseudoDigitalKind));
    sensor.RegisterCallback(w[0].eventType, w[0].callback);
    sensor.RegisterCallback(w[1].eventType, w[1].callback);
    sensor.RegisterCallback(w[2].eventType, w[2].callback);
  }

  /** The same registrations applied to a GPIO sensor. */
  method WireDigital(sensor: Digital.DigitalProximitySensor)
    modifies sensor`proximityDetectedCallback, sensor`proximityLostCallback
    ensures forall r :: r in WiringFor(SensorHandle(sensor.sensorId, DigitalKind)) ==>
              && (r.eventType == ProximityDetected ==> sensor.proximityDetectedCallback == Some(r.callback))
              && (r.eventType == ProximityLost ==> sensor.proximityLostCallback == Some(r.callback))
    ensures sensor.proximityDetectedCallback == Some(Callback.PostEvent)
    ensures sensor.proximityLostCallback == Some(Callback.PostEvent)
  {
    var w := WiringFor(SensorHandle(sensor.sensorId, DigitalKind));
    sensor.RegisterCallback(w[0].eventType, w[0].callback);
    sensor.RegisterCallback(w[1].eventType, w[1].callback);
    sensor.RegisterCallback(w[2].eventType, w[2].callback);
  }

  /** The same registrations applied to a simulated I2C sensor: every one lands in its own slot. */
  method WirePseudoI2C(sensor: PseudoI2C.PseudoI2CProximitySensor)
    modifies sensor`proximityDetectedCallback, sensor`proximityLostCallback, sensor`distanceChangedCallback
    ensures forall r :: r in WiringFor(SensorHandle(sensor.sensorId, PseudoI2CKind)) ==>
              sensor.SlotFor(r.eventType) == Some(r.callback)
    ensures forall t :: t != Error ==> sensor.SlotFor(t) == Some(Callback.PostEvent)
  {
    var w := WiringFor(SensorHandle(sensor.sensorId, PseudoI2CKind));
    sensor.RegisterCallback(w[0].eventType, w[0].callback);
    sensor.RegisterCallback(w[1].eventType, w[1].callback);
    sensor.RegisterCallback(w[2].eventType, w[2].callback);
  }
}
