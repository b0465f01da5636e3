/**
 * The alarm state machine of src/src/AlarmController.cpp: three states, the
 * source of the last trigger, and four commands that are total (a command
 * that does not apply in the current state changes nothing).
 */
module Alarm {

  datatype AlarmState = Disarmed | Armed | Triggered

  /** What the controller holds: its state and the last trigger source. */
  datatype Status = Status(state: AlarmState, lastTriggerSource: string)

  /** The four commands the controller accepts. */
  datatype Command = Arm | Disarm | Trigger(source: string) | ResetTrigger

  /** The source recorded when there is none. */
  const NoSource: string := "None"

  /** A freshly constructed controller. */
  const Initial: Status := Status(Disarmed, NoSource)

  /** The effect of one command (the guarded bodies of arm, disarm, trigger and resetTrigger). */
  function Apply(s: Status, c: Command): (r: Status)
    // only a trigger while armed enters Triggered, and only disarm or reset leaves it
    ensures r.state == Triggered <==>
              (s.state == Armed && c.Trigger?) || (s.state == Triggered && !c.Disarm? && !c.ResetTrigger?)
    // Disarmed is entered only by disarm, and left only by arm
    ensures r.state == Disarmed <==> c.Disarm? || (s.state == Disarmed && !c.Arm?)
    // entering Triggered records the trigger's source
    ensures s.state != Triggered && r.state == Triggered ==> c.Trigger? && r.lastTriggerSource == c.source
    // while Triggered the first source is latched
    ensures s.state == Triggered && r.state == Triggered ==> r == s
    // the source changes only by arm, disarm or a trigger that fires, and only to "None" or the trigger's source
    ensures r.lastTriggerSource != s.lastTriggerSource ==>
              r.lastTriggerSource == NoSource || (c.Trigger? && r.lastTriggerSource == c.source)
  {
    match c
    case Arm => if s.state == Disarmed then Status(Armed, NoSource) else s
    case Disarm => Status(Disarmed, NoSource)
    case Trigger(source) => if s.state == Armed then Status(Triggered, source) else s
    case ResetTrigger => if s.state == Triggered then Status(Armed, s.lastTriggerSource) else s
  }

  /** The status after the commands `cmds`, applied in order, starting from `s`. */
  function Run(s: Status, cmds: seq<Command>): Status
    decreases |cmds|
  {
    if cmds == [] then s else Apply(Run(s, cmds[..|cmds| - 1]), cmds[|cmds| - 1])
  }

  /** The rendering of getStateString. */
  function StateString(st: AlarmState): (r: string)
    ensures r == "DISARMED" <==> st == Disarmed
    ensures r == "ARMED" <==> st == Armed
    ensures r == "TRIGGERED" <==> st == Triggered
  {
    match st
    case Disarmed => "DISARMED"
    case Armed => "ARMED"
    case Triggered => "TRIGGERED"
  }

  /** Whatever the commands, a disarmed controller has no trigger source. */
  ghost predicate Consistent(s: Status)
  {
    s.state == Disarmed ==> s.lastTriggerSource == NoSource
  }

  /** A recorded source is "None" or the argument of one of the triggers issued. */
  ghost predicate Attributed(s: Status, cmds: seq<Command>)
  {
    s.lastTriggerSource == NoSource || exists k :: 0 <= k < |cmds| && cmds[k] == Trigger(s.lastTriggerSource)
  }

  /** Commands that neither disarm nor reset, so they cannot end a trigger. */
  ghost predicate KeepsTrigger(cmds: seq<Command>)
  {
    forall k :: 0 <= k < |cmds| ==> !cmds[k].Disarm? && !cmds[k].ResetTrigger?
  }

  lemma {:induction false} RunAppend(s: Status, cmds: seq<Command>, c: Command)
    ensures Run(s, cmds + [c]) == Apply(Run(s, cmds), c)
  {
    assert (cmds + [c])[..|cmds|] == cmds;
  }

  /** Every command keeps a consistent status consistent, so every reachable status is consistent. */
  lemma {:induction false} RunKeepsConsistent(s: Status, cmds: seq<Command>)
    requires Consistent(s)
    ensures Consistent(Run(s, cmds))
    decreases |cmds|
  {
    if cmds != [] {
      RunKeepsConsistent(s, cmds[..|cmds| - 1]);
    }
  }

  lemma ReachableIsConsistent(cmds: seq<Command>)
    ensures Consistent(Run(Initial, cmds))
  {
    RunKeepsConsistent(Initial, cmds);
  }

  /** The source shown by a controller was "None" or was passed to one of its triggers. */
  lemma {:induction false} SourceIsAttributed(cmds: seq<Command>)
    ensures Attributed(Run(Initial, cmds), cmds)
    decreases |cmds|
  {
    if cmds != [] {
      var n := |cmds| - 1;
      var prefix := cmds[..n];
      SourceIsAttributed(prefix);
      var before := Run(Initial, prefix);
      var after := Run(Initial, cmds);
      assert after == Apply(before, cmds[n]);
      if after.lastTriggerSource != NoSource {
        if after.lastTriggerSource == before.lastTriggerSource {
          var k :| 0 <= k < |prefix| && prefix[k] == Trigger(before.lastTriggerSource);
          assert cmds[k] == prefix[k];
        } else {
          assert cmds[n] == Trigger(after.lastTriggerSource);
        }
      }
    }
  }

  /** Once triggered, the status stays exactly as it is until a disarm or a reset. */
  lemma {:induction false} TriggerLatches(s: Status, cmds: seq<Command>)
    requires s.state == Triggered
    requires KeepsTrigger(cmds)
    ensures Run(s, cmds) == s
    decreases |cmds|
  {
    if cmds != [] {
      TriggerLatches(s, cmds[..|cmds| - 1]);
    }
  }

  /** The first trigger after arming decides the recorded source; later triggers, arms and triggers do not change it. */
  lemma FirstTriggerWins(source: string, before: string, cmds: seq<Command>)
    requires KeepsTrigger(cmds)
    ensures Run(Status(Armed, before), [Trigger(source)] + cmds) == Status(Triggered, source)
  {
    var s := Status(Triggered, source);
    TriggerLatches(s, cmds);
    RunOnFirst(Status(Armed, before), Trigger(source), cmds);
  }

  /** Running `[c] + cmds` is running `cmds` after `c`. */
  lemma {:induction false} RunOnFirst(s: Status, c: Command, cmds: seq<Command>)
    ensures Run(s, [c] + cmds) == Run(Apply(s, c), cmds)
    decreases |cmds|
  {
    if cmds == [] {
      assert ([c] + cmds)[..0] == [];
    } else {
      var n := |cmds| - 1;
      assert ([c] + cmds)[..|[c] + cmds| - 1] == [c] + cmds[..n];
      RunOnFirst(s, c, cmds[..n]);
    }
  }

  /** Disarming is idempotent: a second disarm changes nothing. */
  lemma DisarmIdempotent(s: Status)
    ensures Apply(Apply(s, Disarm), Disarm) == Apply(s, Disarm) == Initial
  {
  }

  /** A disarm racing a trigger while armed ends disarmed with no source, whichever runs first. */
  lemma DisarmTriggerRace(source: string, before: string)
    ensures Apply(Apply(Status(Armed, before), Disarm), Trigger(source)) == Initial
    ensures Apply(Apply(Status(Armed, before), Trigger(source)), Disarm) == Initial
  {
  }

  /** Distinct states render as distinct strings. */
  lemma StateStringInjective(a: AlarmState, b: AlarmState)
    requires StateString(a) == StateString(b)
    ensures a == b
  {
  }

  /** The controller object: two fields updated in place by the four commands. */
  class AlarmController {
    var state: AlarmState
    var lastTriggerSource: string

    function Snapshot(): Status
      reads this
    {
      Status(state, lastTriggerSource)
    }

    constructor ()
      ensures Snapshot() == Initial
    {
      state := Disarmed;
      lastTriggerSource := NoSource;
    }

    method Arm()
      modifies this
      ensures Snapshot() == Apply(old(Snapshot()), Command.Arm)
      ensures old(state) == Disarmed ==> state == Armed && lastTriggerSource == NoSource
      ensures old(state) != Disarmed ==> unchanged(this)
    {
      if state == Disarmed {
        state := Armed;
        lastTriggerSource := NoSource;
      }
    }

    method Disarm()
      modifies this
      ensures Snapshot() == Apply(old(Snapshot()), Command.Disarm)
      ensures state == Disarmed && lastTriggerSource == NoSource
    {
      state := Disarmed;
      lastTriggerSource := NoSource;
    }

    method Trigger(source: string)
      modifies this
      ensures Snapshot() == Apply(old(Snapshot()), Command.Trigger(source))
      ensures old(state) == Armed ==> state == Triggered && lastTriggerSource == source
      ensures old(state) != Armed ==> unchanged(this)
    {
      if state == Armed {
        state := Triggered;
        lastTriggerSource := source;
      }
    }

    method ResetTrigger()
      modifies this
      ensures Snapshot() == Apply(old(Snapshot()), Command.ResetTrigger)
      ensures old(state) == Triggered ==> state == Armed
      ensures lastTriggerSource == old(lastTriggerSource)
      ensures old(state) != Triggered ==> unchanged(this)
    {
      if state == Triggered {
        state := Armed;
      }
    }

    method GetState() returns (st: AlarmState)
      ensures st == state
    {
      st := state;
    }

    method IsArmed() returns (armed: bool)
      ensures armed <==> state == Armed
      ensures state == Triggered ==> !armed
    {
      armed := state == Armed;
    }

    method GetStateString() returns (text: string)
      ensures text == StateString(state)
    {
      text := StateString(state);
    }

    method GetLastTriggerSource() returns (source: string)
      ensures source == lastTriggerSource
    {
      source := lastTriggerSource;
    }
  }
}
