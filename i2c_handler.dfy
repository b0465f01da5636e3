/**
 * The VCNL4010 proximity handler of src/src/I2cHandler.cpp: the decoding of
 * register reads, the configuration sequence, the running flag of the
 * monitor, and the per-sample decision to trigger the alarm. Bus transfers
 * (the I2C_RDWR ioctls), open and close are inputs: each says whether it
 * succeeded and, for a read, which bytes came back.
 */
module Vcnl4010 {
  import opened Wrappers
  import Alarm

  type byte = x: int | 0 <= x < 256
  type uint16 = x: int | 0 <= x < 65536

  /** VCNL4010 registers, command bits and configuration values. */
  const RegCommand: byte := 0x80
  const RegProxRate: byte := 0x82
  const RegProxCurrent: byte := 0x83
  const CmdSelfTimedEnable: byte := 0x07
  const ProxRateHz: byte := 3
  const ProxCurrentMa: byte := 20
  const ExpectedProductId: byte := 0x21

  /** Defaults of the handler and its polling delays. */
  const DefaultIntervalMs: int := 200
  const DefaultThreshold: uint16 := 3000
  const ReadErrorBackoffMs: int := 1000

  /** The source given to the alarm for a proximity trigger. */
  const ProximitySource: string := "PROXIMITY"

  /** i2c_read_word_data: two bytes, most significant first, or nothing when the transfer fails. */
  function ReadWordData(transferOk: bool, msb: byte, lsb: byte): (r: Option<uint16>)
    ensures r.Some? <==> transferOk
    ensures r.Some? ==> r.value / 256 == msb && r.value % 256 == lsb
  {
    if transferOk then Some(msb * 256 + lsb) else None
  }

  /** The two bytes a device sends for `v`, most significant first. */
  function WordBytes(v: uint16): (bytes: (byte, byte))
  {
    (v / 256, v % 256)
  }

  /** Decoding is the inverse of the device's encoding, both ways. */
  lemma WordRoundTrip(v: uint16, msb: byte, lsb: byte)
    ensures ReadWordData(true, WordBytes(v).0, WordBytes(v).1) == Some(v)
    ensures WordBytes(ReadWordData(true, msb, lsb).value) == (msb, lsb)
  {
  }

  /** i2c_read_byte_data: the received byte, or nothing when the transfer fails. */
  function ReadByteData(transferOk: bool, received: byte): (r: Option<byte>)
    ensures r.Some? <==> transferOk
    ensures r.Some? ==> r.value == received
  {
    if transferOk then Some(received) else None
  }

  /** A register write issued on the bus. */
  datatype Write = Write(register: byte, value: byte)

  /** The three configuration writes, in the order issued. */
  const ConfigWrites: seq<Write> :=
    [Write(RegProxRate, ProxRateHz), Write(RegProxCurrent, ProxCurrentMa), Write(RegCommand, CmdSelfTimedEnable)]

  /** Whether configuration succeeded, and the writes it issued. */
  datatype ConfigOutcome = ConfigOutcome(ok: bool, issued: seq<Write>)

  /**
   * configureSensor: the product id is the byte read from register 0x81;
   * a failed read leaves the id at 0; any id but
   * 0x21 is rejected before writing; then the rate, the LED current and the
   * command register are written, stopping at the first write that fails.
   * `acks[k]` is whether the k-th write issued succeeded.
   */
  function ConfigureSensor(productId: Option<byte>, acks: (bool, bool, bool)): (r: ConfigOutcome)
    ensures r.ok <==> productId == Some(ExpectedProductId) && acks.0 && acks.1 && acks.2
    ensures productId != Some(ExpectedProductId) ==> r.issued == []
    ensures |r.issued| <= |ConfigWrites| && r.issued == ConfigWrites[..|r.issued|]
    ensures r.ok ==> r.issued == ConfigWrites
    ensures productId == Some(ExpectedProductId) ==>
              |r.issued| == (if !acks.0 then 1 else if !acks.1 then 2 else 3)
  {
    var id := match productId case Some(b) => b case None => 0;
    if id != ExpectedProductId then ConfigOutcome(false, [])
    else if !acks.0 then ConfigOutcome(false, ConfigWrites[..1])
    else if !acks.1 then ConfigOutcome(false, ConfigWrites[..2])
    else if !acks.2 then ConfigOutcome(false, ConfigWrites)
    else ConfigOutcome(true, ConfigWrites)
  }

  /** The per-sample test of monitorLoop: a successful read, an armed alarm, and a value strictly above the threshold. */
  function ShouldTrigger(sample: Option<uint16>, armed: bool, threshold: uint16): (fire: bool)
    ensures fire <==> sample.Some? && armed && sample.value > threshold
  {
    match sample
    case None => false
    case Some(v) => armed && v > threshold
  }

  /** Applied to the alarm, the test triggers it, with source "PROXIMITY", exactly when it should fire; otherwise nothing changes. */
  lemma ProximityTriggerEffect(s: Alarm.Status, sample: Option<uint16>, threshold: uint16)
    ensures var after := if ShouldTrigger(sample, s.state == Alarm.Armed, threshold)
                         then Alarm.Apply(s, Alarm.Trigger(ProximitySource)) else s;
            && (after != s <==> s.state == Alarm.Armed && sample.Some? && sample.value > threshold)
            && (after != s ==> after == Alarm.Status(Alarm.Triggered, ProximitySource))
  {
  }

  /** What one turn of monitorLoop did. */
  datatype MonitorOutcome =
    | Finished                              // running was clear: the loop ends
    | Polled(triggered: bool, waitMs: int)  // one sample taken; then the loop sleeps waitMs

  class I2cHandler {
    /** fd >= 0: the device is open and configured. */
    var deviceOpen: bool
    var running: bool
    var pollingIntervalMs: int
    var proximityThreshold: uint16

    constructor ()
      ensures !deviceOpen && !running
      ensures pollingIntervalMs == DefaultIntervalMs && proximityThreshold == DefaultThreshold
    {
      deviceOpen, running := false, false;
      pollingIntervalMs, proximityThreshold := DefaultIntervalMs, DefaultThreshold;
    }

    /**
     * initialize: open the device, select the slave address, configure the
     * sensor; the device stays open only if all three succeed.
     */
    method Initialize(openOk: bool, slaveOk: bool, productId: Option<byte>, acks: (bool, bool, bool))
      returns (ok: bool, issued: seq<Write>)
      modifies this`deviceOpen
      ensures ok <==> openOk && slaveOk && ConfigureSensor(productId, acks).ok
      ensures issued == if openOk && slaveOk then ConfigureSensor(productId, acks).issued else []
      ensures deviceOpen == ok
    {
      if !openOk {
        deviceOpen := false;
        return false, [];
      }
      deviceOpen := true;
      if !slaveOk {
        deviceOpen := false;
        return false, [];
      }
      var config := ConfigureSensor(productId, acks);
      issued := config.issued;
      if !config.ok {
        deviceOpen := false;
        return false, issued;
      }
      ok := true;
    }

    /** startMonitoring: refused when the device is not open or the monitor already runs. */
    method StartMonitoring(intervalMs: int, threshold: uint16) returns (started: bool)
      modifies this`running, this`pollingIntervalMs, this`proximityThreshold
      ensures started <==> old(deviceOpen) && !old(running)
      ensures started ==> running && pollingIntervalMs == intervalMs && proximityThreshold == threshold
      ensures !started ==> running == old(running) && pollingIntervalMs == old(pollingIntervalMs)
                           && proximityThreshold == old(proximityThreshold)
    {
      if !deviceOpen {
        return false;
      }
      if running {
        return false;
      }
      pollingIntervalMs := intervalMs;
      proximityThreshold := threshold;
      running := true;
      started := true;
    }

    /** stopMonitoring: clears running; the thread is joined only when it was set, so a second call does nothing. */
    method StopMonitoring() returns (joined: bool)
      modifies this`running
      ensures !running
      ensures joined == old(running)
    {
      joined := running;
      running := false;
    }

    /**
     * One turn of monitorLoop: read the proximity word (registers 0x87 and
     * 0x88, given as `transferOk`, `msb` and `lsb`) and, if the alarm is
     * armed and the value is above the threshold, trigger it with "PROXIMITY".
     * A failed read adds a one-second back-off to the polling interval.
     */
    method MonitorStep(controller: Alarm.AlarmController, transferOk: bool, msb: byte, lsb: byte)
      returns (outcome: MonitorOutcome)
      modifies controller
      ensures !running ==> outcome == Finished && controller.Snapshot() == old(controller.Snapshot())
      ensures running ==> outcome.Polled?
      ensures running ==> outcome.triggered == ShouldTrigger(ReadWordData(transferOk, msb, lsb),
                                                             old(controller.state) == Alarm.Armed, proximityThreshold)
      ensures running ==>
                controller.Snapshot() ==
                  if outcome.triggered then Alarm.Apply(old(controller.Snapshot()), Alarm.Trigger(ProximitySource))
                  else old(controller.Snapshot())
      ensures running ==> outcome.waitMs == (if transferOk then 0 else ReadErrorBackoffMs) + pollingIntervalMs
    {
      if !running {
        return Finished;
      }
      var triggered := false;
      var backoff := 0;
      var proxValue := ReadWordData(transferOk, msb, lsb);
      if proxValue.Some? {
        var armed := controller.IsArmed();
        if armed && proxValue.value > proximityThreshold {
          controller.Trigger(ProximitySource);
          triggered := true;
        }
      } else {
        backoff := ReadErrorBackoffMs;
      }
      outcome := Polled(triggered, backoff + pollingIntervalMs);
    }
  }
}
