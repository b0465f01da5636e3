/**
 * The change detector both digital proximity sensors run on every sample
 * (src/include/PseudoDigitalProximitySensor.hpp and
 * src/include/DigitalProximitySensor.hpp share it line for line): a rising
 * level reports ProximityDetected with 1.0, a falling one ProximityLost with 0.0.
 */
module DigitalEdge {
  import opened Wrappers
  import opened SensorEvents

  /** readData's encoding of a level as a float. */
  function LevelValue(level: bool): (v: real)
    ensures v == 1.0 || v == 0.0
    ensures AsLevel(v) == level
  {
    if level then 1.0 else 0.0
  }

  /** static_cast<bool> of a reading: any non-zero value is true. */
  function AsLevel(v: real): bool
  {
    v != 0.0
  }

  /** The event one sample produces, given the level seen before it. */
  function EdgeEvent(id: string, last: bool, current: bool): (r: Option<SensorEventData>)
    ensures r.None? <==> current == last
    ensures r.Some? ==> r.value.sensorId == id && r.value.value == LevelValue(current)
    ensures r.Some? ==> (r.value.value == 1.0 <==> current) && (r.value.value == 0.0 <==> !current)
    ensures r.Some? ==> (r.value.eventType == ProximityDetected <==> current)
    ensures r.Some? ==> (r.value.eventType == ProximityLost <==> !current)
  {
    if current == last then None
    else if current then Some(SensorEventData(ProximityDetected, id, LevelValue(true)))
    else Some(SensorEventData(ProximityLost, id, LevelValue(false)))
  }

  /** The events of successive samples, starting from level `last`. */
  function Trace(id: string, last: bool, samples: seq<bool>): seq<SensorEventData>
    decreases |samples|
  {
    if samples == [] then []
    else
      var here := match EdgeEvent(id, last, samples[0]) case None => [] case Some(e) => [e];
      here + Trace(id, samples[0], samples[1..])
  }

  /**
   * Over any samples, detected and lost take turns, the first event moves
   * away from `last`, and the trace is empty exactly when no sample differs from `last`.
   */
  lemma {:induction false} TraceAlternates(id: string, last: bool, samples: seq<bool>)
    ensures Alternates(ProximityTypes(Trace(id, last, samples)))
    ensures ProximityTypes(Trace(id, last, samples)) == [] <==> forall k :: 0 <= k < |samples| ==> samples[k] == last
    ensures ProximityTypes(Trace(id, last, samples)) != [] ==>
              ProximityTypes(Trace(id, last, samples))[0] == (if last then ProximityLost else ProximityDetected)
    decreases |samples|
  {
    if samples != [] {
      var c := samples[0];
      var rest := samples[1..];
      TraceAlternates(id, c, rest);
      var here := match EdgeEvent(id, last, c) case None => [] case Some(e) => [e];
      ProximityTypesAppend(here, Trace(id, c, rest));
      var tail := ProximityTypes(Trace(id, c, rest));
      if c == last {
        assert ProximityTypes(Trace(id, last, samples)) == tail;
        assert forall k :: 1 <= k < |samples| ==> samples[k] == rest[k - 1];
      } else {
        var t := if c then ProximityDetected else ProximityLost;
        assert ProximityTypes(here) == [t];
        assert ProximityTypes(Trace(id, last, samples)) == [t] + tail;
      }
    }
  }

  /** From the sensors' initial level (low), the first event is a detection. */
  lemma FromRestFirstIsDetection(id: string, samples: seq<bool>)
    ensures Alternates(ProximityTypes(Trace(id, false, samples)))
    ensures ProximityTypes(Trace(id, false, samples)) != [] ==> ProximityTypes(Trace(id, false, samples))[0] == ProximityDetected
  {
    TraceAlternates(id, false, samples);
  }
}
