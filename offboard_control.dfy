/**
 * models/offboard_control.py: the offboard building blocks the waypoint
 * missions inherit. `hold_mode` repeats a zero-velocity setpoint until the
 * hold time has passed, `initialize_mission` arms, sets an initial position
 * setpoint ten metres up and starts offboard mode, and `end_mission` lands,
 * cancels the telemetry tasks and stops offboard mode.
 *
 * The methods take the inherited `self.drone` as `v`. Clock readings and
 * altitudes are inputs: `clock` holds the seconds elapsed since the hold
 * began, one reading per test of the loop condition.
 */
module OffboardControls {
  import opened Wrappers
  import opened Polling
  import opened Drone

  // ---------------------------------------------------------------------
  // `DroneFunctionality.hold_mode`
  // ---------------------------------------------------------------------

  /** The setpoint `hold_mode` repeats: no motion, the given yaw. */
  function HoldCommand(angle: real): Command
  {
    SetVelocityNed(0.0, 0.0, 0.0, angle)
  }

  /** The loop condition fails once the elapsed time is no longer below the hold time. */
  function Expired(holdTime: real): real -> bool
  {
    (elapsed: real) => !(elapsed < holdTime)
  }

  /** How many setpoints a hold sends: one per reading below the hold time, up to the first that is not. */
  function HoldTicks(holdTime: real, clock: seq<real>): (n: nat)
    ensures n <= |clock|
    ensures forall i :: 0 <= i < n ==> clock[i] < holdTime
    ensures n < |clock| ==> clock[n] >= holdTime
  {
    FirstFrom(clock, Expired(holdTime), 0).GetOr(|clock|)
  }

  /** The calls of a hold whose clock reads `clock`. */
  function HoldPlan(holdTime: real, angle: real, clock: seq<real>): seq<Command>
  {
    seq(HoldTicks(holdTime, clock), _ => HoldCommand(angle))
  }

  /** A hold whose time is not positive sends nothing, since elapsed time is never negative. */
  lemma NoHoldWithoutTime(holdTime: real, angle: real, clock: seq<real>)
    requires holdTime <= 0.0
    requires forall i :: 0 <= i < |clock| ==> clock[i] >= 0.0
    ensures HoldPlan(holdTime, angle, clock) == []
  {
    if |clock| > 0 {
      assert clock[0] >= holdTime;
    }
  }

  /** How `hold_mode` ends: the time passed, a setpoint raised, or the clock is still running. */
  datatype Hold = Held | HoldRaised | Holding

  /**
   * `hold_mode`: while the elapsed time is below `holdTime`, send a
   * zero-velocity setpoint with yaw `angle`. Every call it makes is that
   * setpoint, one per reading below the hold time.
   */
  method HoldMode(v: Vehicle, holdTime: real, angle: real, clock: seq<real>) returns (end: Hold)
    modifies v
    ensures IssuedPrefix(old(v.commands), v.commands, HoldPlan(holdTime, angle, clock))
    ensures forall i :: |old(v.commands)| <= i < |v.commands| ==> v.commands[i] == HoldCommand(angle)
    ensures RaisedOnlyAtEnd(|old(v.commands)|, v.commands, v.failing, end == HoldRaised)
    ensures end != HoldRaised ==> v.commands == old(v.commands) + HoldPlan(holdTime, angle, clock)
    ensures end == Held <==> (exists i :: 0 <= i < |clock| && clock[i] >= holdTime)
                             && RaisedOnlyAtEnd(|old(v.commands)|, v.commands, v.failing, false)
  {
    ghost var before := v.commands;
    ghost var plan := HoldPlan(holdTime, angle, clock);
    var i := 0;
    while i < |clock|
      invariant i <= |clock| && i <= |plan|
      invariant forall j :: 0 <= j < i ==> clock[j] < holdTime
      invariant v.commands == before + plan[..i]
      invariant RaisedOnlyAtEnd(|before|, v.commands, v.failing, false)
    {
      if !(clock[i] < holdTime) {
        assert plan[..i] == plan;
        return Held;
      }
      var ok := v.IssueNext(before, plan, HoldCommand(angle));
      assert plan[..i + 1] == plan[..i] + [HoldCommand(angle)];
      if !ok {
        return HoldRaised;
      }
      i := i + 1;
    }
    assert plan[..i] == plan;
    return Holding;
  }

  // ---------------------------------------------------------------------
  // `OffboardControl.initialize_mission`
  // ---------------------------------------------------------------------

  /** The calls of a complete `initialize_mission`: arm, climb setpoint ten metres up, start. */
  function InitPlan(): seq<Command>
  {
    [Arm, SetPositionNed(0.0, 0.0, -10.0, 0.0), OffboardStart]
  }

  /** How `initialize_mission` ends. */
  datatype Start = StartRaised | OffboardFailed | Started(climbed: bool)

  /**
   * `initialize_mission`: arm and the setpoint raise through; an
   * `OffboardError` from start is reported and ends the method quietly;
   * after a start, the takeoff is judged a success exactly when the
   * altitude read five seconds later is more than eight metres above the
   * one read at start. The verdict is only printed.
   */
  method InitializeMission(v: Vehicle, startAlt: real, currentAlt: real) returns (end: Start)
    modifies v
    ensures IssuedPrefix(old(v.commands), v.commands, InitPlan())
    ensures RaisedOnlyAtEnd(|old(v.commands)|, v.commands, v.failing, end == StartRaised || end == OffboardFailed)
    ensures end == OffboardFailed <==> |v.commands| == |old(v.commands)| + 3 && !end.Started?
    ensures end.Started? ==> v.commands == old(v.commands) + InitPlan()
                             && (end.climbed <==> currentAlt - startAlt > 8.0)
  {
    ghost var before := v.commands;
    ghost var plan := InitPlan();
    var ok := v.IssueNext(before, plan, Arm);
    if !ok { return StartRaised; }
    ok := v.IssueNext(before, plan, SetPositionNed(0.0, 0.0, -10.0, 0.0));
    if !ok { return StartRaised; }
    ok := v.IssueNext(before, plan, OffboardStart);
    if !ok { return OffboardFailed; }
    assert plan[..3] == plan;
    return Started(currentAlt - startAlt > 8.0);
  }

  // ---------------------------------------------------------------------
  // `OffboardControl.end_mission`
  // ---------------------------------------------------------------------

  /**
   * The calls of `end_mission`: land, cancel the status, position and
   * velocity tasks, stop offboard mode.
   */
  function EndPlan(): seq<Command>
  {
    [Land, CancelTask(StatusText), CancelTask(PositionUpdate), CancelTask(VelocityPrint), OffboardStop]
  }

  /** How `end_mission` ends: land raised, or it ran through, with or without offboard stopping. */
  datatype End = LandRaised | Ended(offboardStopped: bool)

  /**
   * `end_mission`. A failing land raises through; otherwise the three
   * tasks are cancelled and offboard is stopped, an error there only being
   * printed. The attitude task started by `connect` is never cancelled.
   */
  method EndMission(v: Vehicle) returns (end: End)
    modifies v
    ensures end == LandRaised <==> |old(v.commands)| in v.failing
    ensures end == LandRaised ==> v.commands == old(v.commands) + [Land]
    ensures IssuedPrefix(old(v.commands), v.commands, EndPlan())
    ensures end.Ended? ==> v.commands == old(v.commands) + EndPlan()
                           && (end.offboardStopped <==> |old(v.commands)| + 4 !in v.failing)
    ensures CancelTask(AttitudeUpdate) !in v.commands[|old(v.commands)|..]
  {
    var ok := v.Issue(Land);
    if !ok {
      assert EndPlan()[..1] == [Land];
      return LandRaised;
    }
    v.Record(CancelTask(StatusText));
    v.Record(CancelTask(PositionUpdate));
    v.Record(CancelTask(VelocityPrint));
    var stopped := v.Issue(OffboardStop);
    return Ended(stopped);
  }
}
