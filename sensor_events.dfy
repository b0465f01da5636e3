/**
 * The vocabulary every sensor and the event manager share
 * (src/include/SensorInterface.hpp): event types, event records,
 * and callbacks, which the model knows only by identity.
 */
module SensorEvents {
  import opened Wrappers

  /** The closed set of event kinds a sensor can report. */
  datatype SensorEventType = ProximityDetected | ProximityLost | DistanceChanged | Error

  /** One event: what happened, which sensor saw it, and the reading (a float in the source). */
  datatype SensorEventData = SensorEventData(eventType: SensorEventType, sensorId: string, value: real)

  /**
   * A callback, known only by identity. PostEvent is the forwarder that the
   * event manager installs in every sensor (it hands the event to postEvent);
   * Handler(id) is any other consumer, such as the alarm handler's methods.
   */
  datatype Callback = PostEvent | Handler(id: nat)

  /** One synchronous call of a callback with an event. */
  datatype Invocation = Invocation(callback: Callback, event: SensorEventData)

  /** The call a sensor makes for event `e` through one of its slots: none when the slot is empty (a null std::function). */
  function Deliver(slot: Option<Callback>, e: SensorEventData): (calls: seq<Invocation>)
    ensures slot.None? <==> calls == []
    ensures slot.Some? ==> calls == [Invocation(slot.value, e)]
  {
    match slot
    case None => []
    case Some(cb) => [Invocation(cb, e)]
  }

  /** The detected/lost events of a trace, in order, as their types. */
  function ProximityTypes(events: seq<SensorEventData>): (types: seq<SensorEventType>)
    ensures |types| <= |events|
    ensures forall k :: 0 <= k < |types| ==> types[k] == ProximityDetected || types[k] == ProximityLost
  {
    if events == [] then []
    else
      var head := if events[0].eventType == ProximityDetected || events[0].eventType == ProximityLost
                  then [events[0].eventType] else [];
      head + ProximityTypes(events[1..])
  }

  lemma {:induction false} ProximityTypesAppend(a: seq<SensorEventData>, b: seq<SensorEventData>)
    ensures ProximityTypes(a + b) == ProximityTypes(a) + ProximityTypes(b)
  {
    if a == [] {
      assert a + b == b;
    } else {
      assert (a + b)[1..] == a[1..] + b;
      ProximityTypesAppend(a[1..], b);
    }
  }

  /** No two neighbours are the same: detected and lost take turns. */
  ghost predicate Alternates(types: seq<SensorEventType>)
  {
    forall k :: 0 <= k < |types| - 1 ==> types[k] != types[k + 1]
  }

  /** Putting an event type in front of an alternating list keeps it alternating when it differs from the old front. */
  lemma AlternatesCons(t: SensorEventType, tail: seq<SensorEventType>)
    requires Alternates(tail)
    requires tail != [] ==> tail[0] != t
    ensures Alternates([t] + tail)
  {
    var all := [t] + tail;
    forall k | 0 <= k < |all| - 1
      ensures all[k] != all[k + 1]
    {
      if k > 0 {
        assert all[k] == tail[k - 1] && all[k + 1] == tail[k];
      }
    }
  }
}
