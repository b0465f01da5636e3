# Proximity alarm: sensor-event pipeline and alarm state machine

A Dafny model of the core of a Raspberry Pi security alarm. Proximity
sensors (a GPIO line, a simulated GPIO pin, a simulated I2C distance
sensor) turn their readings into events. An event manager queues the
events and dispatches them to registered callbacks. A three-state alarm
controller (DISARMED, ARMED, TRIGGERED) records which source triggered
it, and a VCNL4010 proximity handler polls the chip and triggers the
alarm with the source "PROXIMITY" when the alarm is armed and a reading
is over the threshold.

Files and modules:

- `wrappers.dfy`, module `Wrappers`: the `Option` type.
- `sensor_events.dfy`, module `SensorEvents`: event types, event records, and callbacks.
  Callbacks are known only by identity: a sensor call is an `Invocation` of a `Callback`.
- `alarm_controller.dfy`, module `Alarm`: the transition function `Apply`, the
  `AlarmController` class, and lemmas over sequences of commands (`Run`).
- `event_manager.dfy`, module `EventManagement`: the registry functions, the
  `EventManager` class with its FIFO queue, and the callback wiring.
- `digital_edge.dfy`, module `DigitalEdge`: the change detector both digital sensors share, and its trace.
- `pseudo_digital_sensor.dfy`, `digital_sensor.dfy`, `pseudo_i2c_sensor.dfy`: one module per sensor header.
- `i2c_handler.dfy`, module `Vcnl4010`: the register decoding, the configuration
  sequence, and the `I2cHandler` class.

State that the source changes in place is held by classes with `modifies`
clauses: the controller's state and source, the manager's sensor list, registry
and queue, the sensors' callback slots and last readings, the simulators'
function-static counters, and the handler's `running` flag and settings. Each
such method's `ensures` ties the new state to a pure function of the old one
(`Alarm.Apply`, `EventManagement.Register`, `DigitalEdge.EdgeEvent`,
`PseudoI2C.Emitted`, ...). The lemmas about those functions state the
properties: reachable invariants, latching, FIFO order, alternation of
detections and losses, bounds, and round trips.

A run loop becomes one turn, with the sample as a parameter. Hardware
results are parameters: whether a bus transfer succeeded and the bytes it
returned, whether open and slave selection succeeded, the GPIO line value, and
the value of `rand()`. Float readings are `real`. The simulated I2C distance is an `int`,
because it starts at 20.0 and moves in whole steps, so the float values are exact.

Where the code and the design description differ, the model follows the code:

- `resetTrigger` keeps the last trigger source (`Alarm.Apply`, case `ResetTrigger`). It
  does not set a reset marker or clear per-source flags.
- A trigger while TRIGGERED changes nothing at all. There are no per-source active flags to mark.
- `arm` in ARMED or TRIGGERED is a no-op. `disarm` is unconditional.
- The `default: return "UNKNOWN"` branch of `getStateString` cannot be reached with three states, so `Alarm.StateString` has no such case.
- `configureSensor` misses a semicolon after `return false` at src/src/I2cHandler.cpp:163.
  The model does what the line evidently intends: it rejects any product id other than 0x21
  before any write. A failed product-id read leaves the id at 0, so it is rejected too.

## Model

| member | source | states |
|---|---|---|
| Alarm.Apply | src/src/AlarmController.cpp:6-44 | Only a trigger while ARMED enters TRIGGERED. Only disarm and reset leave TRIGGERED. DISARMED is entered only by disarm and left only by arm. Entering TRIGGERED records the trigger's source. While TRIGGERED nothing changes. The source changes only to "None" or to a firing trigger's source. |
| Alarm.StateString | src/src/AlarmController.cpp:56-64 | Each state maps to its own name: "DISARMED", "ARMED", "TRIGGERED". |
| Alarm.StateStringInjective | src/src/AlarmController.cpp:56-64 | Distinct states get distinct strings. |
| Alarm.RunKeepsConsistent | src/src/AlarmController.cpp:6-44 | Every command sequence keeps "DISARMED implies source None". |
| Alarm.ReachableIsConsistent | src/src/AlarmController.cpp:4-44 | From a fresh controller, no command sequence reaches DISARMED with a source other than "None". |
| Alarm.SourceIsAttributed | src/src/AlarmController.cpp:24-30 | After any commands from a fresh controller, the source is "None" or the argument of one of the triggers issued. |
| Alarm.TriggerLatches | src/src/AlarmController.cpp:26-27 | Once TRIGGERED, commands other than disarm and reset leave state and source exactly as they are. |
| Alarm.FirstTriggerWins | src/src/AlarmController.cpp:24-30 | From ARMED, the first trigger's source is the one held after any later arms and triggers. |
| Alarm.DisarmIdempotent | src/src/AlarmController.cpp:16-22 | Disarm from any state gives DISARMED with "None"; a second disarm changes nothing. |
| Alarm.DisarmTriggerRace | src/src/AlarmController.cpp:16-33 | From ARMED, a disarm and a trigger end DISARMED with "None" in either order. |
| Alarm.AlarmController.constructor | src/src/AlarmController.cpp:4 | A new controller is DISARMED with source "None". |
| Alarm.AlarmController.Arm | src/src/AlarmController.cpp:6-14 | DISARMED becomes ARMED with source "None"; otherwise nothing changes. |
| Alarm.AlarmController.Disarm | src/src/AlarmController.cpp:16-22 | Any state becomes DISARMED with source "None". |
| Alarm.AlarmController.Trigger | src/src/AlarmController.cpp:24-34 | ARMED becomes TRIGGERED with the given source; otherwise nothing changes. |
| Alarm.AlarmController.ResetTrigger | src/src/AlarmController.cpp:36-44 | TRIGGERED becomes ARMED and the source is kept; otherwise nothing changes. |
| Alarm.AlarmController.GetState | src/src/AlarmController.cpp:47-50 | Returns the current state. |
| Alarm.AlarmController.IsArmed | src/src/AlarmController.cpp:52-54 | True exactly in ARMED, so false while TRIGGERED. |
| Alarm.AlarmController.GetStateString | src/src/AlarmController.cpp:56-64 | The name of the current state. |
| Alarm.AlarmController.GetLastTriggerSource | src/src/AlarmController.cpp:66-69 | Returns the recorded source. |
| EventManagement.Register | src/include/EventManager.hpp:19-21 | The (id, type) entry becomes the callback. Every other entry reads as before. The sensor id gains an inner map. |
| EventManagement.Unregister | src/include/EventManager.hpp:23-25 | The (id, type) entry is gone and every other entry reads as before. A possibly empty inner map remains for the id. |
| EventManagement.LastRegistrationWins | src/include/EventManager.hpp:19-21 | A second registration for the same (id, type) overrides the first. |
| EventManagement.UnregisterUndoesRegister | src/include/EventManager.hpp:19-25 | Unregistering after a registration leaves the registry as unregistering alone would. |
| EventManagement.Dispatch | src/include/EventManager.hpp:85-94 | The event is delivered to the callback registered for its sensor and type, if there is one; otherwise it is dropped. |
| EventManagement.DrainIsFifo | src/include/EventManager.hpp:35-46 | Processing a queue handles each event once, in queue order. An event is delivered exactly when a callback is registered for it. |
| EventManagement.EventManager.constructor | src/include/EventManager.hpp:76-78 | No sensors, an empty registry, an empty queue. |
| EventManagement.EventManager.RegisterSensor | src/include/EventManager.hpp:15-17 | The sensor is appended and the earlier entries keep their order. |
| EventManagement.EventManager.RegisterCallbackForSensor | src/include/EventManager.hpp:19-21 | The registry becomes `Register` of the old registry. |
| EventManagement.EventManager.UnregisterCallbackForSensor | src/include/EventManager.hpp:23-25 | The registry becomes `Unregister` of the old registry. |
| EventManagement.EventManager.PostEvent | src/include/EventManager.hpp:27-33 | Exactly one event is added at the back of the queue. The registry is untouched. The invariant "posted = dispatched + queued" is kept. |
| EventManagement.EventManager.ProcessNext | src/include/EventManager.hpp:37-44 | On a non-empty queue, exactly the front event is removed, then dispatched; the rest keep their order. On an empty queue nothing happens. The invariant "posted = dispatched + queued" is kept. |
| EventManagement.PostThenProcess | src/include/EventManager.hpp:27-46 | Three events posted in order are dispatched in that order. Each is delivered to the callback registered for it, or dropped when there is none, and the registry is unchanged. |
| EventManagement.EventManager.StartSensorThreads | src/include/EventManager.hpp:48-57 | Every registered sensor, in order, gets the forwarder to postEvent for detected, lost and distance-changed, and none for Error. |
| EventManagement.WirePseudoDigital | src/include/EventManager.hpp:50-53 | Applying the sensor's `WiringFor` list, which is the one `StartSensorThreads` builds for it, puts each detected or lost registration in its slot, so both slots forward to postEvent. |
| EventManagement.WireDigital | src/include/EventManager.hpp:50-53 | Applying the sensor's `WiringFor` list puts each detected or lost registration in its slot, so both slots of a GPIO sensor forward to postEvent. |
| EventManagement.WirePseudoI2C | src/include/EventManager.hpp:50-53 | Applying the sensor's `WiringFor` list puts every registration in its own slot, so all three slots forward to postEvent. |
| DigitalEdge.LevelValue | src/include/PseudoDigitalProximitySensor.hpp:31-35 | A level reads as 1.0 or 0.0, and converting the reading back to bool gives the level again. |
| DigitalEdge.EdgeEvent | src/include/PseudoDigitalProximitySensor.hpp:66-82 | An unchanged level gives no event. A change gives one event with the sensor's id: detected with 1.0 on a rise, lost with 0.0 on a fall. |
| DigitalEdge.TraceAlternates | src/include/PseudoDigitalProximitySensor.hpp:64-86 | Over any samples, detected and lost take turns. The first event moves away from the starting level. There is no event exactly when every sample equals it. |
| DigitalEdge.FromRestFirstIsDetection | src/include/PseudoDigitalProximitySensor.hpp:17-19 | From the initial low level, the first event is a detection. |
| PseudoDigital.ToggledStep | src/include/PseudoDigitalProximitySensor.hpp:95-101 | One more read flips the simulated pin exactly when the new count is a multiple of 50. |
| PseudoDigital.LevelHoldsWithinPeriod | src/include/PseudoDigitalProximitySensor.hpp:95-101 | Inside each block of 50 reads the pin holds one level; it is high in odd blocks. |
| PseudoDigital.SimulatedPin.constructor | src/include/PseudoDigitalProximitySensor.hpp:95-96 | Low level, count 0. |
| PseudoDigital.SimulatedPin.ReadDigitalPin | src/include/PseudoDigitalProximitySensor.hpp:92-102 | Counts the read and toggles on every 50th. Returns the new level and keeps "level = toggled(count)". |
| PseudoDigital.PseudoDigitalProximitySensor.constructor | src/include/PseudoDigitalProximitySensor.hpp:17-19 | The last level is false and both slots are empty. |
| PseudoDigital.PseudoDigitalProximitySensor.RegisterCallback | src/include/PseudoDigitalProximitySensor.hpp:37-47 | Sets only the detected or lost slot. Other types leave both slots as they were. |
| PseudoDigital.PseudoDigitalProximitySensor.UnregisterCallback | src/include/PseudoDigitalProximitySensor.hpp:49-55 | Clears only the matching slot. Other types change nothing. |
| PseudoDigital.PseudoDigitalProximitySensor.ReadData | src/include/PseudoDigitalProximitySensor.hpp:31-35 | 1.0 when the simulated pin reads high, 0.0 otherwise. |
| PseudoDigital.PseudoDigitalProximitySensor.Step | src/include/PseudoDigitalProximitySensor.hpp:66-83 | The call made is `EdgeEvent`'s event through its slot, or none. Afterwards the last level equals the sample. |
| PseudoDigital.PseudoDigitalProximitySensor.RunOnce | src/include/PseudoDigitalProximitySensor.hpp:64-86 | One read of the simulated pin followed by `Step` on its level. |
| Digital.LineReading | src/include/DigitalProximitySensor.hpp:31-38 | 1.0 exactly when the line value is 1, and 0.0 otherwise. |
| Digital.DigitalProximitySensor.constructor | src/include/DigitalProximitySensor.hpp:19-21 | The last level is false and both slots are empty. |
| Digital.DigitalProximitySensor.RegisterCallback | src/include/DigitalProximitySensor.hpp:41-55 | Sets only the detected or lost slot. Other types change nothing. |
| Digital.DigitalProximitySensor.UnregisterCallback | src/include/DigitalProximitySensor.hpp:56-66 | Clears only the matching slot. |
| Digital.DigitalProximitySensor.Step | src/include/DigitalProximitySensor.hpp:71-94 | An unchanged level calls nothing. A rise calls the detected slot with 1.0 and a fall the lost slot with 0.0. The last level becomes the sample. |
| PseudoI2C.Emitted | src/include/PseudoI2CProximitySensor.hpp:68-95 | A reading equal to the last one gives nothing. Any change gives distance-changed with the new value and id first. Then comes detected only when crossing below 10 from at or above 10, and lost only when crossing to 10 or more from below 10 but not from -1. |
| PseudoI2C.ProximityTakesTurns | src/include/PseudoI2CProximitySensor.hpp:66-98 | For non-negative readings, detections and losses take turns. Once a distance has been seen, the first of them moves away from its side of 10. |
| PseudoI2C.Drift | src/include/PseudoI2CProximitySensor.hpp:110-114 | The new distance lies in [0, 30]. From a distance in range it moves by at most 2. Away from the bounds it moves by exactly rand() % 5 - 2. |
| PseudoI2C.SimulatedDistance.constructor | src/include/PseudoI2CProximitySensor.hpp:107-108 | Distance 20, count 0. |
| PseudoI2C.SimulatedDistance.ReadI2CDistance | src/include/PseudoI2CProximitySensor.hpp:104-116 | Counts the read and drifts only on every 30th. The value returned always lies in [0, 30]. |
| PseudoI2C.PseudoI2CProximitySensor.constructor | src/include/PseudoI2CProximitySensor.hpp:15-17 | The last distance is the sentinel -1 and all three slots are empty. |
| PseudoI2C.PseudoI2CProximitySensor.RegisterCallback | src/include/PseudoI2CProximitySensor.hpp:35-47 | Sets only the matching one of the detected, lost and distance-changed slots. Error changes nothing. |
| PseudoI2C.PseudoI2CProximitySensor.UnregisterCallback | src/include/PseudoI2CProximitySensor.hpp:49-57 | Clears only the matching slot. |
| PseudoI2C.PseudoI2CProximitySensor.ReadData | src/include/PseudoI2CProximitySensor.hpp:29-33 | The simulated distance after one more read. |
| PseudoI2C.PseudoI2CProximitySensor.Step | src/include/PseudoI2CProximitySensor.hpp:68-95 | The calls made are `Emitted`'s events, in order, each through its own slot. Afterwards the last distance is the reading. |
| PseudoI2C.PseudoI2CProximitySensor.RunOnce | src/include/PseudoI2CProximitySensor.hpp:66-98 | One simulated read followed by `Step` on it. |
| Vcnl4010.ReadWordData | src/src/I2cHandler.cpp:56-83 | Fails exactly when the transfer fails. Otherwise the value's high byte is the first byte received and its low byte the second, so it lies in [0, 65535]. |
| Vcnl4010.WordRoundTrip | src/src/I2cHandler.cpp:80-81 | Decoding inverts the device's MSB-first encoding, in both directions. |
| Vcnl4010.ReadByteData | src/src/I2cHandler.cpp:86-113 | Fails exactly when the transfer fails; otherwise it is the received byte. |
| Vcnl4010.ConfigureSensor | src/src/I2cHandler.cpp:156-177 | Succeeds exactly when the product id read is 0x21 and all three writes succeed. Any other id, a failed read included, issues no write. The writes go rate, then LED current, then command, and stop right after the first failure. |
| Vcnl4010.ShouldTrigger | src/src/I2cHandler.cpp:229-239 | Fires exactly when the read succeeded, the alarm is armed and the value is strictly above the threshold. |
| Vcnl4010.ProximityTriggerEffect | src/src/I2cHandler.cpp:233-239 | Applied to the alarm, a sample changes it exactly when the alarm is armed and the value is above the threshold. The alarm then becomes TRIGGERED by "PROXIMITY". |
| Vcnl4010.I2cHandler.constructor | src/src/I2cHandler.cpp:115-117 | Not running, device closed, interval 200, threshold 3000. |
| Vcnl4010.I2cHandler.Initialize | src/src/I2cHandler.cpp:128-154 | Succeeds exactly when open, slave selection and configuration all succeed; the device stays open only then. Configuration is issued only after a successful open and selection. |
| Vcnl4010.I2cHandler.StartMonitoring | src/src/I2cHandler.cpp:191-209 | Does nothing when the device is not open or the monitor already runs. Otherwise it stores interval and threshold and sets running. |
| Vcnl4010.I2cHandler.StopMonitoring | src/src/I2cHandler.cpp:211-222 | Clears running and joins only if it was set, so a second call joins nothing. |
| Vcnl4010.I2cHandler.MonitorStep | src/src/I2cHandler.cpp:224-249 | Does nothing once running is clear. Otherwise the alarm is triggered with "PROXIMITY" exactly when `ShouldTrigger` holds and is left as it was otherwise. The wait is the interval, plus one second after a failed read. |

## Left out

- Threads, mutexes, condition variables, `notify_*`, atomics and the `while (true)` drivers.
  Each loop is modelled as one turn, run sequentially.
- Vcnl4010.I2cHandler.MonitorStep: `isArmed()` reads the atomic state without taking the controller's lock,
  and `trigger()` then takes the lock and checks ARMED again. The model runs the two with nothing in between,
  so it does not show a disarm slipping in between them. Because `trigger` checks again, the end state is the same.
- `stopSystem` in src/include/EventManager.hpp is an empty placeholder that only logs. `startEventProcessingThread` and `startSystem` only start threads.
- Sleeps: the 50 ms sampling interval of the simulated sensors and the 10 ms pause after configuration are left out.
  The monitor's wait is returned as a number, not slept.
- Hardware access is not modelled: `open`, `close`, the I2C_RDWR and I2C_SLAVE ioctls, libgpiod chip and line handling, and `I2cHandler`'s destructor.
  Their outcomes are parameters. `readProximity` is the word read of register 0x87 inside `MonitorStep`.
- Sensor `initialize()`: the simulated sensors only log and return true. The GPIO sensor only requests its line.
- `getSensorId` and `getSensorType` are constant getters. DigitalProximitySensor.hpp does not define them at all; the model keeps the id as a field.
- The per-source active flags, the sound commands and the header-only constructor arguments of src/src/AlarmController.h are not modelled. They have no implementation.
- Logging, glog and iostream are not modelled. Neither are IEEE float semantics: readings are exact reals.
- `rand()` is a parameter. The function-static simulator state is one object shared by all sensor instances, as in C++.
- PseudoDigital.SimulatedPin.ReadDigitalPin: the read counter is an unbounded integer. The source's `int` would overflow after 2^31 reads.
- PseudoI2C.SimulatedDistance.ReadI2CDistance: the read counter is an unbounded integer, as for the simulated pin.
- The registry, sensor list and queue accesses are not synchronized against each other. The current code locks only the queue.
- GpioHandler, the HTTP server, the Qt and React front ends, the entry points and the museum-alarm sketches are not part of this model.
