# DroneCore in Dafny

This project models the control logic of DroneCore, a set of Python scripts that fly PX4 drones through MAVSDK and talk to each other and to a ground station over XBee radios. It covers the following parts of that logic:

- **Radio service** (`XbeeService`, services/xbee_service.py): a bounded queue of received messages that drops the oldest one when full; a drain loop that hands each message to the custom handler; the sender address rendered as 16 upper-case hex digits; the compact JSON envelope `{"i":…,"d":…,"t":…}`; and the open-device guard on sending and closing.
- **Text command protocol** (`CommandProtocol`): `"lat,lon,alt,command"` with four integer fields and coordinates in millionths of a degree. It is parsed by the three follower handlers, and `rpi_execute/follower_drone.py` acknowledges command 1 with `"lat,lon,alt,2"`.
- **Follower missions** (`FollowerDrone`, `FollowerDroneTest`, `DroneMissions`): the handlers' decisions and the order of vehicle calls in each mission, including its timeouts, takeoff checks, arrival tests and land-on-failure rules.
- **Formation flight** (`Formation`, test.py): the relative-bearing sectors, the midpoint, the role- and code-dependent target, the `POS|`/`ORT|`/`GUI|` dispatcher over the script's globals, the outgoing `POS|` report, and the arm-and-takeoff guard.
- **Waypoint flights**:
  - `WaypointMissions`: the per-pass velocity law and the stop and hold rules;
  - `MultipleWaypoints`: visiting a list of waypoints;
  - `SquareWave`: building the square-wave path and flying it;
  - `OffboardControls`: hold, initialise and end;
  - `OffboardMission`: the position-setpoint flight with its home captured once;
  - `VelocityGoto`: the velocity-steering loop of main.py;
  - `Connection`: how a call binds to `connect(system_address, port)`.
- **Numeric helpers**:
  - `Pid`: the PID controller;
  - `DistanceCalculation`: the geodesic north/east split and the midpoint;
  - `DroneVisionCalculator`: camera ground coverage and pixel/metre conversion;
  - `FormulaTest`: the flat-earth offset.

The vehicle is a `Drone.Vehicle` object. It records every call a script makes, in order. The positions of the calls that raise are fixed in advance in its `failing` set. Each imperative operation is a method whose contract states the exact trace it leaves. A run that stops early leaves a prefix of its plan, and only the last call of that prefix raised.

Telemetry, clocks and the radio link are inputs:

- A telemetry stream is the finite sequence of samples a loop has read so far.
- A wait that has not decided by the end of that sequence reports that it is still waiting.
- Clock readings are the seconds elapsed, one per test of a loop condition.

Python floats are `real`. Python's `%` on floats is floored, and `int()` of a float truncates toward zero (module `Maths`). The transcendental functions and the WGS84 geodesic solver are function values held in the datatypes `Maths.Elementary` and `Maths.Geodesic`. A property that needs one of their laws names that law in its `requires`:

- `PythagoreanIdentity`: sin² + cos² = 1;
- `ZeroAngle`: sin 0 = 0 and cos 0 = 1;
- `SqrtIsRoot`: `sqrt` is the non-negative square root.

Several scripts cannot work as they are written. The model follows the code in each case:

- `connect` (models/connect.py) starts a task on `self.update_attitude`, which no class in the hierarchy defines. Once the vehicle is connected and healthy, `connect` has started three telemetry tasks and then raises `AttributeError`. The model takes a parameter saying whether `update_attitude` exists; as written, no mission gets past `connect`.
- `current_attitude`, which the stop setpoint of `WaypointMission.go_to_position` reads, is never assigned either.
- `WaypointMission` never sets `home_position`, so `go_to_position` raises before its first command. This also affects every mission built on it.
- In `WaypointMission.go_to_position`, a positive hold time after arriving on the very first pass raises `UnboundLocalError`, because `angle_deg` was never assigned.
- `run_waypoint_mission` calls `connect(sysid=…, system_address=…)`. That call does not bind to `connect(system_address, port)`, so the mission stops with `TypeError` before any vehicle call.
- models/offboard_mission.py has three faults:
  - `OffboardControl.__init__` passes keywords to a parent constructor that takes none.
  - `run_mission` calls `connect()` with no arguments.
  - `run_mission` ends with `end_mission`, which no class in that file's hierarchy defines.
- main.py uses `DroneConnection` and `asyncio` without importing them. The loop is modelled with a parameter saying whether `asyncio` is bound; as written, the first sleep ends the run.
- test.py gives a drone the role "sağ", but `hedef_nokta_hesapla` tests for "sag". That drone therefore never leaves the midpoint.
- In `DroneMission.wait_until_arrival`, the inner `async for` ends only on an arriving sample. A positive `timeout` therefore does not bound the wait: the method answers `False` only when `timeout` is not positive.
- In rpi_execute/follower_drone.py, each of the thirty arrival rounds reads positions until one arrives. The vehicle lands only after thirty arriving samples.

Where a plain reading of the scripts' comments and messages differs from the code, the model follows the code:

- test.py accepts a `POS|` report with six or more comma fields and ignores the extra ones. It also stores the fields one by one, so a field that fails to parse leaves the earlier fields updated.
- The radio service passes the raw message dictionary to the custom handler. The defaults (`"Unknown"`, `False`, `""`) are used only for logging.
- A queue with `max_queue_size <= 0` is unbounded, as Python's `queue.Queue` is.

## Model

| member | source | states |
|---|---|---|
| XbeeService.BigEndian | services/xbee_service.py:104 | `int.from_bytes(address, "big")` is below 256 to the number of bytes |
| XbeeService.SenderHex | services/xbee_service.py:104-106 | the sender field is made of upper-case hex digits only |
| XbeeService.SenderHexOf64BitAddress | services/xbee_service.py:104-106 | an 8-byte address renders as exactly 16 zero-padded upper-case hex digits that read back as the big-endian address |
| XbeeService.MessageFull | services/xbee_service.py:103-110 | the queued dictionary has exactly the keys sender, isBroadcast, data and timestamp, holding the hex sender, the broadcast flag, the decoded data and the reception time |
| XbeeService.Get | services/xbee_service.py:69-72 | `dict.get` gives the stored value for a present key and the default for a missing one |
| XbeeService.Summarize | services/xbee_service.py:69-72 | a missing key falls back on "Unknown", False, "" and 0 respectively |
| XbeeService.SummaryOfReceived | services/xbee_service.py:69-110 | a dictionary built from a received frame never falls back on a default |
| XbeeService.Enqueue | services/xbee_service.py:112-120 | the queue stays within `max_queue_size` (unbounded when it is not positive), its last element is the new message, and it is the newest elements of the old queue followed by the new message |
| XbeeService.EnqueueWithRoom | services/xbee_service.py:113 | with room, the message is appended and the existing messages keep their order |
| XbeeService.EnqueueWhenFull | services/xbee_service.py:115-120 | into a full queue exactly the oldest message is dropped and the new one appended, keeping the length at the bound |
| XbeeService.ConstructMessage | services/xbee_service.py:172-182 | the envelope contains no space and no newline |
| XbeeService.ConstructMessageIsCompact | services/xbee_service.py:176-182 | the envelope is the compact JSON object with keys i, d and t; only spaces are removed from the data, and a JSON decoder reads the d field back as those data |
| XbeeService.Service.constructor | services/xbee_service.py:25-39 | the device starts closed, the queue empty and the stop event clear; the queue thread runs only when a callback is given |
| XbeeService.Service.SetCustomMessageHandler | services/xbee_service.py:88-94 | sets whether a callable custom handler exists and changes nothing else |
| XbeeService.Service.HandleProcessedMessage | services/xbee_service.py:63-86 | logs the defaulted summary and hands the raw dictionary to the custom handler only when one is set |
| XbeeService.Service.QueueProcessor | services/xbee_service.py:42-61 | with the stop event set nothing is taken; otherwise each pass takes the oldest message in FIFO order and hands it on, so the queue loses exactly its first `handled` messages and the handler sees them in order |
| XbeeService.Service.DefaultMessageReceivedCallback | services/xbee_service.py:96-122 | starts a never-started queue thread when a callback exists; an undecodable payload or restarting a finished thread loses the message; otherwise the message is enqueued with drop-oldest overflow |
| XbeeService.Service.Listen | services/xbee_service.py:159-170 | a closed device is opened; the callback is registered unless opening raised, and that error propagates |
| XbeeService.Service.SendBroadcastMessage | services/xbee_service.py:184-209 | a closed device makes the guard return None with nothing sent; otherwise raw data, or the envelope when asked for, goes out; XBee errors return False and other errors propagate |
| XbeeService.Service.SendPrivateMessage | services/xbee_service.py:211-223 | a closed device returns None; otherwise the envelope goes out and any error returns False |
| XbeeService.Service.Close | services/xbee_service.py:225-235 | an open device is closed and the stop event set; a closed one is left as it is |
| CommandProtocol.ParseFields | rpi_execute/follower_drone.py:24-29 | WrongFieldCount exactly when there are not four fields; an order exactly when all four read as integers, and then the order holds those integers in field order |
| CommandProtocol.ParseFieldsSameIntegers | rpi_execute/follower_drone.py:25-29 | the parse depends only on the integers the fields read as |
| CommandProtocol.StripEach | test/follower_drone_test.py:237 | each field is replaced by its stripped form, one for one |
| CommandProtocol.ParseStrippedAgrees | test/follower_drone_test.py:237-242 | stripping the fields before `int()` gives the same result as the unstripped parse on every payload |
| CommandProtocol.EncodeRoundTrip | rpi_execute/follower_drone.py:24-29 | every order joined with commas parses back to itself, with or without stripping |
| CommandProtocol.PlainFields | rpi_execute/follower_drone.py:58 | no rendered integer field contains a comma |
| CommandProtocol.FeedbackRoundTrip | rpi_execute/follower_drone.py:58 | the acknowledgement `lat,lon,alt,2` is the encoding of the same point with command 2 and parses back to it |
| CommandProtocol.JoinFour | rpi_execute/follower_drone.py:58 | joining four fields puts exactly one separator between neighbours |
| CommandProtocol.FieldCountDecides | rpi_execute/follower_drone.py:24-25 | a payload is parsed only when it splits into four fields, and any other field count is rejected |
| CommandProtocol.MicroDegrees | rpi_execute/follower_drone.py:130-131 | the degrees times one million give back the received integer |
| CommandProtocol.MessageData | rpi_execute/follower_drone.py:21 | `get("data", "")` gives "" for a missing key and text only when the stored value is text |
| CommandProtocol.MissionOrder | rpi_execute/follower_drone.py:21-39 | a mission order exists exactly when the data are text that parse as four integers with command 1, and it is that parsed order |
| CommandProtocol.EncodedOrderStartsMission | missions/drone_mission.py:100-117 | a message carrying an encoded order starts a mission exactly when its command is 1 |
| CommandProtocol.FeedbackStartsNothing | rpi_execute/follower_drone.py:42-46 | an acknowledgement message never starts a mission |
| FollowerDrone.ClimbFrom | rpi_execute/follower_drone.py:115-129 | Reached names the first of at most twenty samples at 3 m or more above home; NotReached needs twenty samples, none of them high enough; Undecided means fewer than twenty samples, none high enough |
| FollowerDrone.CheckTakeoff | rpi_execute/follower_drone.py:115-126 | the `range(20)` loop gives the takeoff check's result |
| FollowerDrone.ApproachFrom | rpi_execute/follower_drone.py:136-148 | when the arrival loop ends, it has read a number of samples within the readings |
| FollowerDrone.AwaitArrival | rpi_execute/follower_drone.py:136-148 | the nested `range(30)` and `async for` loops give the arrival loop's result |
| FollowerDrone.ArrivalCountSplit | rpi_execute/follower_drone.py:145 | counting arriving samples distributes over a split of the readings |
| FollowerDrone.ApproachCounts | rpi_execute/follower_drone.py:136-148 | the arrival loop ends exactly when `rounds` samples within 1e-5 degrees have been read, and it ends on the last of them |
| FollowerDrone.ApproachNeedsThirtyArrivals | rpi_execute/follower_drone.py:136-150 | the mission reaches the landing exactly when thirty arriving samples have been read |
| FollowerDrone.Launch | rpi_execute/follower_drone.py:84-110 | connect, the two waits and the two home reads, then arm, set the 5 m takeoff altitude and take off, in plan order; the first call that raises ends it |
| FollowerDrone.Prepare | rpi_execute/follower_drone.py:84-105 | one connect call, then the connection and health waits and two home reads; Waiting only while no connected state has arrived or telemetry is missing |
| FollowerDrone.Approach | rpi_execute/follower_drone.py:115-150 | without the climb it returns with no landing; otherwise it sends the goto at home plus 5 m, sets speed 1.5, and lands after thirty arriving samples |
| FollowerDrone.DroneMission | rpi_execute/follower_drone.py:74-153 | only command 1 flies; the calls follow the plan in order and the first that raises ends the mission; a failed takeoff check makes four calls and never lands; landing comes after all seven calls |
| FollowerDrone.SendFeedbackMessage | rpi_execute/follower_drone.py:53-72 | with a service, the acknowledgement goes out raw as a broadcast and is recorded only when the device is open and the radio accepts it; no other service state changes |
| FollowerDrone.CustomMessageHandler | rpi_execute/follower_drone.py:17-51 | no mission order means no call and no transmission; a mission order is acknowledged once on the radio and flown by the plan for its coordinates |
| FollowerDroneTest.Prepare | test/follower_drone_test.py:56-108 | exactly one connect call; ConnectFailed exactly when it raises; the connection and health waits give up only after their timeouts; home is read before arming |
| FollowerDroneTest.TryLand | test/follower_drone_test.py:121-125 | one land call whose failure is swallowed |
| FollowerDroneTest.ArmAndTakeoff | test/follower_drone_test.py:110-126 | arm, 5 m takeoff altitude, speed 2.5 and takeoff in order; a failing call is followed by a land call |
| FollowerDroneTest.NoGotoBeforeTarget | test/follower_drone_test.py:110-153 | the calls before the goto, with or without a trailing landing, contain no goto |
| FollowerDroneTest.Fly | test/follower_drone_test.py:128-211 | with no safe altitude within 30 s it lands without a goto; otherwise the goto to the received point at home plus 10 m, then up to 120 s of progress checks and a landing whatever they showed; a goto is sent only after a safe altitude was seen |
| FollowerDroneTest.GoToTarget | test/follower_drone_test.py:155-211 | a goto that raises is followed by a landing; Arrived names the first progress read within all three thresholds before 120 s; NotArrived means time ran out first; either way the run ends with a landing |
| FollowerDroneTest.Launch | test/follower_drone_test.py:32-126 | everything up to takeoff follows the plan; a connect or wait failure stops after the connect call alone; a takeoff error ends with a landing |
| FollowerDroneTest.DroneMission | test/follower_drone_test.py:26-211 | only command 1 flies; no goto unless a safe altitude was seen in time; the goto ignores the received altitude; every ending after arming leaves land as the last call |
| FollowerDroneTest.CustomMessageHandler | test/follower_drone_test.py:224-263 | the stripped four-field parse with command 1 starts the safe mission, and anything else issues no call; for an order it keeps the mission's guarantees: a failed connection leaves only the connect call, a goto only after a safe altitude, land last once armed, and the exact plan for the order's coordinates on every completed flight |
| FollowerDroneTest.StrippedOrderAgrees | test/follower_drone_test.py:237-247 | this handler acts on exactly the orders the unstripped handlers act on |
| DroneMissions.DroneMission.constructor | missions/drone_mission.py:9-16 | the defaults: port 50061, udpin://0.0.0.0:14541, maximum speed 5.0, tolerance 0.00001, timeout 30 and a fresh drone |
| DroneMissions.DroneMission.WaitUntilArrival | missions/drone_mission.py:44-59 | False exactly when `timeout` is not positive; True exactly when the timeout is positive and some position lies strictly within `tolerance` in both latitude and longitude |
| DroneMissions.DroneMission.ConnectDrone | missions/drone_mission.py:18-29 | one connect call to the system address, then the waits for the link and for a healthy estimate |
| DroneMissions.DroneMission.ArmAndTakeoff | missions/drone_mission.py:31-36 | arm, set maximum speed, take off, in plan order; false when one of them raised |
| DroneMissions.DroneMission.GotoLocation | missions/drone_mission.py:38-42 | the goto to the point divided by one million, at altitude 0 and yaw 0 |
| DroneMissions.DroneMission.Land | missions/drone_mission.py:61-64 | the land call |
| DroneMissions.DroneMission.FlyAndLand | missions/drone_mission.py:72-75 | arm and take off, goto, wait, and land whatever the wait answered; a completed run records the wait's answer, which is whether the timeout is positive |
| DroneMissions.DroneMission.RunMission | missions/drone_mission.py:66-75 | no call unless command is 1; then connect, arm, takeoff, goto, wait and land in plan order; a completed run has made the whole plan |
| DroneMissions.CustomMessageHandler | missions/drone_mission.py:90-122 | a well-formed payload with command 1 runs the mission; anything else issues no call |
| Polling.FirstFrom | rpi_execute/follower_drone.py:87-90 | the index of the first good sample, or None when no sample read so far is good |
| Polling.AwaitFirst | missions/drone_mission.py:21-29 | the reading loop returns what the first-good-sample specification does |
| Polling.WaitFrom | test/follower_drone_test.py:68-75 | accepts the first good sample; gives up at the first bad sample read after more than `limit` seconds; before that every sample was bad and on time |
| Polling.AwaitWithTimeout | test/follower_drone_test.py:64-94 | the reading loop returns what the timed-wait specification does |
| Polling.PollFrom | test/follower_drone_test.py:128-145 | stops at the first good sample read before `limit` seconds, or times out at the first pass that starts at or after `limit` |
| Polling.PollUntil | test/follower_drone_test.py:176-203 | the reading loop returns what the polling specification does |
| Formation.RelativeBearing | test.py:265-266 | the relative bearing lies in [0, 360) and differs from `angle_to_other - my_yaw_deg` by a whole number of turns |
| Formation.Classify | test.py:268-280 | ahead exactly above 315 or below 45 degrees, right in [45, 135), behind in [135, 225), left in [225, 315]; the role is "sol" exactly for right and behind and "sağ" otherwise |
| Formation.MesafeYon | test.py:241-284 | the distance is the root of dx² + dy²; the position word and role are those of every angle in [0, 360) that is the bearing to the other drone seen from the heading up to whole turns, and such an angle exists |
| Formation.BearingUnique | test.py:266 | the relative bearing is the only angle in [0, 360) a whole number of turns away from `angle_to_other - my_yaw_deg` |
| Formation.HeadingModulo360 | test.py:265-280 | adding whole turns to the yaw leaves distance, position word and role unchanged |
| Formation.OrtaNokta | test.py:287-315 | a zero cosine of the mean latitude raises (None); otherwise the radius and the cosine cancel and the midpoint is the arithmetic mean of the two positions |
| Formation.HedefNokta | test.py:324-361 | a zero cosine of the midpoint latitude raises; code 1 changes only the latitude, code 2 only the longitude; another code or role stays at the midpoint |
| Formation.TargetFiveMetresAway | test.py:331-358 | the target is five metres from the midpoint on the script's scale: south for "sag" and north for "sol" under code 1; west and east under code 2 where the cosine is positive |
| Formation.SidesSymmetric | test.py:346-358 | the "sag" and "sol" targets of one code lie symmetrically about the midpoint |
| Formation.AssignedRoles | test.py:268-358 | of the roles `hesapla_mesafe_yon` assigns, "sol" moves the drone and "sağ" never does, because "sağ" is not the "sag" tested for |
| Formation.Relate | test.py:200-204 | without the own position nothing changes; `msg_code` is never changed |
| Formation.StoreFields | test.py:193-197 | only the five received values change |
| Formation.ReceivePos | test.py:189-207 | a `POS|` message never changes `msg_code` |
| Formation.Receive | test.py:184-227 | no message changes the own position or heading; an unknown prefix changes nothing; only `GUI|` changes `msg_code` |
| Formation.OwnPositionKept | test.py:170-237 | a whole run of reads leaves the own position and heading as they were |
| Formation.CodeOnlyFromGui | test.py:220-223 | without `GUI|` messages `msg_code` stays what it was |
| Formation.GuiRoundTrip | test.py:220-223 | a `GUI|code|payload` order sets `msg_code` to that code and changes nothing else |
| Formation.OrtRoundTrip | test.py:156-218 | a midpoint report as `broadcast_ort` writes it overwrites the stored midpoint with the values it carries and nothing else |
| Formation.PosRoundTrip | test.py:126-204 | a position report as `broadcast_pos` writes it is stored in full, with the code text `msg_code or 0`, and the placement and midpoint follow when the own position is known |
| Formation.ReceiveCompletePos | test.py:189-204 | a `POS|` message with six separator-free fields stores all five values and the code text |
| Formation.StoreComplete | test.py:193-198 | a complete payload stores all five values and the code text |
| Formation.ShortPosKeepsPlacement | test.py:191-204 | a report with fewer than six fields overwrites the values before the missing one but never the placement or the midpoint |
| Formation.Formation.constructor | test.py:12-32 | every module global starts unset |
| Formation.Formation.HesaplaMesafeYon | test.py:241-284 | writes `mesafe`, `konum` and `my_role` from the distance and sector computation and leaves the other globals unchanged |
| Formation.Formation.StoreReport | test.py:193-197 | assigns the numeric fields one at a time, as StoreFields describes, and reports whether the payload is complete |
| Formation.Formation.RelateOwn | test.py:200-204 | the placement and midpoint update, as Relate describes |
| Formation.Formation.HandlePos | test.py:189-207 | the `POS|` branch, as ReceivePos describes |
| Formation.Formation.HandleOrt | test.py:209-218 | the `ORT|` branch, as ReceiveOrt describes |
| Formation.Formation.HandleGui | test.py:220-224 | the `GUI|` branch, as ReceiveGui describes |
| Formation.Formation.HandleMessage | test.py:184-227 | one message dispatched on its prefix, as Receive describes |
| Formation.Formation.XbeeVeriAlma | test.py:170-237 | a run of reads, as ReceiveAll describes, with timeouts changing nothing |
| Formation.IssueTakeoffPlan | test.py:421-439 | zero velocity, offboard start, arm, takeoff altitude and takeoff in order; a failing offboard start ends it after two calls |
| Formation.ArmAndTakeoff | test.py:410-456 | no call unless `msg_code` is 0; otherwise the takeoff plan in order, then the first altitude reading within 0.5 m of the target ends the climb |
| Connection.BindsFillsEach | models/connect.py:21 | a call that binds fills each of the two parameters exactly once |
| Connection.KeywordCallBinds | models/connect.py:21 | `connect(system_address=..., port=...)` binds |
| Connection.ConnectVehicle | models/connect.py:21-44 | a call that does not bind raises TypeError with no vehicle call; otherwise one connect call to the address; LinkRaised exactly when that call raises; once connected and healthy, the three telemetry tasks are started and then, without `update_attitude`, AttitudeMissing; Linked exactly when `update_attitude` exists, after the fourth task start |
| OffboardControls.HoldTicks | models/offboard_control.py:17 | the hold sends one setpoint per clock reading below the hold time, up to the first reading that is not |
| OffboardControls.NoHoldWithoutTime | models/offboard_control.py:17 | a hold time that is not positive sends nothing, since elapsed time is never negative |
| OffboardControls.HoldMode | models/offboard_control.py:13-21 | every call is the zero-velocity setpoint with the given yaw, one per reading below the hold time; Held exactly when some reading reached the hold time |
| OffboardControls.InitializeMission | models/offboard_control.py:27-51 | arm, the setpoint 10 m up, offboard start, in order; an OffboardError at start ends it quietly after three calls; a start means exactly the whole plan was made |
| OffboardControls.EndMission | models/offboard_control.py:53-64 | a failing land raises after that call alone; otherwise land, three task cancellations and offboard stop; the attitude task is never cancelled |
| WaypointMissions.MaxSpeed | missions/waypoint_mission.py:82 | the smaller of the target speed and 20 m/s |
| WaypointMissions.SpeedFactor | missions/waypoint_mission.py:84-91 | 0.2 exactly within two metres, 0.5 exactly beyond two and within five metres, 1.0 exactly beyond five |
| WaypointMissions.ClimbRate | missions/waypoint_mission.py:98 | zero exactly at home plus target altitude, negative (climbing) exactly below it, and 0.3 times the height error in size |
| WaypointMissions.TickCommand | missions/waypoint_mission.py:64-111 | always a velocity setpoint: the stop setpoint within half a metre, and otherwise north and east each the leg component divided by the leg length times the capped, tiered speed, with the climb rate and the bearing in degrees |
| WaypointMissions.SteeringSpeed | missions/waypoint_mission.py:82-95 | while steering, the horizontal speed is exactly the capped speed times the tier factor |
| WaypointMissions.SteeringTowardsTarget | missions/waypoint_mission.py:94-95 | while steering at a positive speed, the horizontal velocity is parallel to the leg and points towards the target |
| WaypointMissions.SpeedCapped | missions/waypoint_mission.py:82 | with a non-negative target speed the horizontal speed never exceeds 20 m/s |
| WaypointMissions.SteerCount | missions/waypoint_mission.py:62-79 | the loop sends one setpoint per pass up to and including the first pass within half a metre, or one per tick when none is |
| WaypointMissions.SteerPlan | missions/waypoint_mission.py:62-113 | there are as many setpoints as passes |
| WaypointMissions.StopOnlyOnArrival | missions/waypoint_mission.py:72-79 | the stop setpoint is sent exactly at the arriving pass; every earlier setpoint steers from more than half a metre away |
| WaypointMissions.SteerTo | missions/waypoint_mission.py:62-113 | the calls follow the steering plan, the first that raises ends it; Stopped names the arriving pass; Steering means no tick arrived |
| WaypointMissions.GotoPlanShape | missions/waypoint_mission.py:62-119 | a visit's calls begin with the steering setpoints; anything after them is the hold, which needs arrival after the first pass and a positive hold time, and keeps the last steering heading |
| WaypointMissions.GotoPlanOnArrival | missions/waypoint_mission.py:62-119 | after arriving at pass k, the calls are the steering setpoints followed by the hold when it runs |
| WaypointMissions.HoldOnArrival | missions/waypoint_mission.py:106-119 | a hold after arriving at the first pass raises UnboundLocalError with no call, since no heading was computed; otherwise hold_mode on the last heading, or nothing without a hold time |
| WaypointMissions.ConcatPrefix | missions/multiple_waypoint_mission.py:17-21 | the calls of fewer visits are a prefix of the calls of more visits |
| WaypointMissions.VisitPlans | missions/multiple_waypoint_mission.py:17-21 | one plan per visit |
| WaypointMissions.VisitPlanAt | missions/multiple_waypoint_mission.py:17-21 | the i-th visit plan is the go_to_position plan for the i-th target |
| WaypointMissions.ConcatStep | missions/multiple_waypoint_mission.py:17-21 | one more visit keeps the trace a prefix of the tour, and a completed visit extends it by that visit's plan |
| WaypointMissions.ReachedOneMore | missions/multiple_waypoint_mission.py:17-21 | one more arriving visit extends the arrivals so far |
| WaypointMissions.WaypointMission.constructor | missions/waypoint_mission.py:22-27 | home_position starts unset and the drone has made no call |
| WaypointMissions.WaypointMission.GoToPosition | missions/waypoint_mission.py:38-119 | without home_position it raises before any call; otherwise the calls follow the visit plan; Unbound exactly when the first pass arrives and the hold time is positive |
| WaypointMissions.WaypointMission.StartUp | missions/multiple_waypoint_mission.py:24-25 | a call that does not bind sends nothing; otherwise connect and initialize_mission in plan order; without `update_attitude` it never opens and stops after the connect plan; Opened means the whole start plan was made |
| WaypointMissions.WaypointMission.VisitNext | missions/multiple_waypoint_mission.py:17-21 | one visit after the earlier ones arrived: NoHome exactly without home_position; Arrived only when that visit reached its target |
| WaypointMissions.WaypointMission.VisitAll | missions/multiple_waypoint_mission.py:17-21 | one go_to_position per target in list order, going on only after arriving; without home_position a non-empty list stops at the first target with no call |
| MultipleWaypoints.Unpack | missions/multiple_waypoint_mission.py:18 | a tuple unpacks exactly when it has five values; they become latitude, longitude, altitude, hold time and, from travel_time, the target speed |
| MultipleWaypoints.Unpacked | missions/multiple_waypoint_mission.py:17-18 | the targets of the tuples before the first one that does not unpack, in order |
| MultipleWaypoints.MultipleWaypointMission | missions/multiple_waypoint_mission.py:12-21 | nothing for an empty list; otherwise the visits in list order, each only after the previous arrived, up to a tuple that does not unpack, which raises ValueError |
| MultipleWaypoints.WrittenCallRejected | missions/multiple_waypoint_mission.py:24 | the call as written, `connect(sysid=..., system_address=...)`, does not bind to `connect(system_address, port)` |
| MultipleWaypoints.VisitThenEnd | missions/multiple_waypoint_mission.py:26-27 | the visits and then end_mission once they all completed |
| MultipleWaypoints.RunWaypointMission | missions/multiple_waypoint_mission.py:23-27 | a connect call that does not bind ends the run with no vehicle call; without `update_attitude` the run never starts and leaves at most the connect plan; otherwise connect, initialise, visit and end in plan order, each only after the previous returned |
| SquareWave.PositionInWave | missions/square_wave_mission.py:49 | `(forward % wave_length) / wave_length` is the fractional part of `forward / wave_length`, in [0, 1) |
| SquareWave.SquareValue | missions/square_wave_mission.py:52-55 | the square value is always +1 or -1 |
| SquareWave.SquarePeriodic | missions/square_wave_mission.py:49-55 | the square value repeats every wave length |
| SquareWave.SquareFlipsEveryHalfWave | missions/square_wave_mission.py:49-55 | half a wave further on, the square value has the opposite sign |
| SquareWave.Steps | missions/square_wave_mission.py:43-84 | the path after the start has one waypoint per step, the `j`-th being the waypoint of step `j + 1` |
| SquareWave.SquareWavePath | missions/square_wave_mission.py:12-86 | the path is missing exactly where the code divides by zero (zero step size, or zero wave length with a step to take); otherwise it is the start waypoint followed by `int(total / step)` step waypoints, or the start alone when that count is not positive |
| SquareWave.NextWaypoint | missions/square_wave_mission.py:45-82 | one pass of the loop produces the step waypoint of the specification for step `i` |
| SquareWave.CalculateSquareWavePath | missions/square_wave_mission.py:12-86 | the loop returns the path of the specification, including the division-by-zero cases |
| SquareWave.StepSide | missions/square_wave_mission.py:58-82 | a positive side moves `|amplitude|` right on yaw + 90, a negative one `|amplitude|` left on yaw - 90, zero stays on the centre-line point, which is always measured from the start |
| SquareWave.PositiveAmplitudeSides | missions/square_wave_mission.py:52-75 | with a positive amplitude, steps in the first half of a wave go right and those in the second half go left, by exactly the amplitude |
| SquareWave.ZeroAmplitudeCentreLine | missions/square_wave_mission.py:58-82 | with zero amplitude every waypoint after the start lies on the centre line `i * step_size` from the start, on bearing yaw |
| SquareWave.RunTargets | missions/square_wave_mission.py:98-99 | the run visits the waypoints after the first, in order, each at 15 m with hold 0.5 s and speed 8 m/s |
| SquareWave.VisitThenLand | missions/square_wave_mission.py:97-102 | the visits run in order; a stop during them is an interrupted tour (missing home exactly when no home is set); land is called only after every visit arrived |
| SquareWave.RunSquareWaveMission | missions/square_wave_mission.py:88-102 | the keyword `connect` call always binds; without `update_attitude` (as written) the run stops at connect, leaving at most the connect call and three task starts, and stops that way exactly when the vehicle came up; the commands issued are a prefix of connect, initialise, the visits and land, and land is reached only with `update_attitude` present and every visit arrived |
| OffboardMission.GetLatLonDistance | models/offboard_mission.py:9-15 | the north and east split of the geodesic from point 1 to point 2, the same as the one in the distance module |
| OffboardMission.SplitKeepsDistance | models/offboard_mission.py:9-15 | north^2 + east^2 equals the squared geodesic distance |
| OffboardMission.Capture | models/offboard_mission.py:32-35 | after the capture the home is complete, and a complete home is never changed |
| OffboardMission.CaptureOnce | models/offboard_mission.py:32-35 | a later call keeps the home that the first call set, whatever position it finds |
| OffboardMission.CaptureFromOnePosition | models/offboard_mission.py:32-35 | a home with any part unset is replaced as a whole by the one current position |
| OffboardMission.SetpointDistance | models/offboard_mission.py:38-48 | the setpoint's horizontal distance from home equals the geodesic distance from home to the target; its down is `-target_alt` and its velocity zero |
| OffboardMission.WithinIsNear | models/offboard_mission.py:51-60 | passing the arrival test means being under sqrt 2 m from the target by the geodesic and under 0.5 m from `home_alt + target_alt` |
| OffboardMission.Repeat | models/offboard_mission.py:43-48 | `n` copies of the one setpoint |
| OffboardMission.RepeatOneMore | models/offboard_mission.py:43-48 | one more pass appends one more copy of the same setpoint |
| OffboardMission.WrittenRunCallRejected | models/offboard_mission.py:79 | `connect()` with no arguments does not bind to `connect(system_address, port)` |
| OffboardMission.ParentInitRejected | models/offboard_mission.py:20 | passing `sysid` and `system_address` to a constructor that takes no parameters does not bind |
| OffboardMission.SendUntilWithin | models/offboard_mission.py:38-62 | the same setpoint is sent once per pass; the flight ends at the first reading that passes the arrival test, or at a failing send, which stops everything after it |
| OffboardMission.OffboardControl.constructor | models/offboard_mission.py:19-24 | the home starts unset and nothing has been sent |
| OffboardMission.OffboardControl.GoToPosition | models/offboard_mission.py:26-62 | with no position nothing is sent and the home is kept; otherwise the home is captured if unset and the setpoint is sent until the first arriving reading |
| OffboardMission.OffboardControl.InitializeMission | models/offboard_mission.py:64-76 | arm, then the 10 m setpoint, then offboard start; arm and the setpoint raise through, a failing start is reported and the method returns normally |
| OffboardMission.OffboardControl.RunMission | models/offboard_mission.py:78-83 | a `connect` call that does not bind stops everything with nothing sent; without `update_attitude` it stops at connect; otherwise the calls are a prefix of connect, initialise and the default setpoint once per pass from the captured home, and a flight that arrived ends at the missing `end_mission` having sent exactly the setpoints up to the arriving pass |
| VelocityGoto.OffsetOnEquator | main.py:20-22 | on the equator the east error is the longitude difference at 111000 m per degree, unscaled |
| VelocityGoto.ArrivesAtTarget | main.py:20-26 | a reading exactly at the target passes the stopping test (distance under 1 m) |
| VelocityGoto.VelocityMagnitude | main.py:29-36 | the commanded velocity has magnitude `velocity_m_s` and yaw 0, and for a positive speed each component has the sign of the error it steers out |
| VelocityGoto.SendsAtSpeed | main.py:11-37 | over the first `n` passes at most `n` velocity commands are sent, each one at the requested speed |
| VelocityGoto.FlyPass | main.py:13-36 | a pass with no position sends nothing; a pass with a position that has not arrived sends exactly one velocity command along the error, and it fails only when that send fails |
| VelocityGoto.GotoWithVelocity | main.py:7-39 | offboard start is sent first and a failing start stops everything; the run stops (and sends offboard stop) at the first arriving reading with exactly the velocity commands of the passes before it; a failing send ends the run at that pass; without `asyncio` bound the first sleep ends the run at pass 0 |
| VelocityGoto.MissingFirstReading | main.py:13-16 | with readings `[None, at the target]` the stopping test first passes at pass 1, which the loop as written never reaches |
| Pid.Derivative | optimization/pid.py:32 | for `dt > 0` the derivative times `dt` is the change in error; for `dt <= 0` it is 0 |
| Pid.Next | optimization/pid.py:29-37 | after a call the remembered error is `target - current` and the integral has grown by exactly `error * dt` |
| Pid.PID.constructor | optimization/pid.py:11-17 | the gains are stored as given and the integral and previous error start at 0 |
| Pid.PID.Calculate | optimization/pid.py:19-39 | the call moves the controller's memory one step and returns `kp*error + ki*integral + kd*derivative` over the updated integral |
| Pid.RunIntegral | optimization/pid.py:30 | after any sequence of calls the integral is the starting integral plus the sum of `error * dt` over the calls |
| Pid.RunSnoc | optimization/pid.py:19-39 | running the calls one more time is one more step from where the earlier calls left the memory |
| Pid.RunRemembersLastError | optimization/pid.py:37 | after any non-empty sequence of calls the remembered error is that of the last call |
| Pid.ProportionalOnly | optimization/pid.py:35 | with `ki = kd = 0` the output is `kp * error`, whatever the memory |
| Pid.SteadyErrorNoKick | optimization/pid.py:32-35 | when the error has not changed and `dt > 0` the derivative term adds nothing |
| DistanceCalculation.GetTurnAngle | optimization/distance_calculation.py:22-27 | the angle in radians is the geodesic's initial azimuth in degrees |
| DistanceCalculation.GetLatLonDistance | optimization/distance_calculation.py:9-19 | the total is the geodesic distance, split into north and east along the very angle `get_turn_angle` reports |
| DistanceCalculation.NorthEastKeepsDistance | optimization/distance_calculation.py:14-19 | north^2 + east^2 equals total^2 |
| DistanceCalculation.FindVectors | optimization/distance_calculation.py:30-38 | north and east are the polar vector of `meters` at `angle_deg` degrees |
| DistanceCalculation.FindVectorsNorth | optimization/distance_calculation.py:30-38 | at angle 0 the whole length is north |
| DistanceCalculation.FindVectorsLength | optimization/distance_calculation.py:30-38 | the vector has length `|meters|`: north^2 + east^2 == meters^2 |
| DistanceCalculation.DistanceIsPolarVector | optimization/distance_calculation.py:9-38 | `get_lat_lon_distance` gives the same north/east as `find_vectors` of the geodesic distance and azimuth |
| DistanceCalculation.TargetIgnoresSplit | optimization/distance_calculation.py:41-50 | the target is the geodesic direct solution at bearing `yaw` and distance `velocity`; the north/east split it computes has no effect |
| DistanceCalculation.FindMiddleOfTwoPoints | optimization/distance_calculation.py:53-60 | the midpoint is equally far from both inputs in each coordinate (test_camera.py:1-9 has the same definition) |
| DistanceCalculation.MiddleSymmetric | optimization/distance_calculation.py:53-60 | the midpoint does not depend on the order of the points |
| DistanceCalculation.MiddleOfSamePoint | optimization/distance_calculation.py:53-60 | the midpoint of a point with itself is that point |
| DistanceCalculation.MiddleBetween | optimization/distance_calculation.py:53-60 | each coordinate of the midpoint lies between the inputs' |
| DistanceCalculation.MiddleSeparable | optimization/distance_calculation.py:58-59 | the midpoint's latitude depends only on the latitudes and its longitude only on the longitudes |
| DroneVisionCalculator.NewVisionCalculator | optimization/drone_vision_calculator.py:9-14 | the stored fields of view are the given degrees in radians; the image size is kept |
| DroneVisionCalculator.DefaultVisionCalculator | optimization/drone_vision_calculator.py:9-10 | the defaults are fields of view of 90 and 60 degrees on a 1920 x 1080 image |
| DroneVisionCalculator.CalculateGroundCoverage | optimization/drone_vision_calculator.py:16-33 | the coverage exists exactly when neither image side is 0; its width and height are `2 * altitude * tan(fov / 2)`, its area their product, and each ground sample distance times the pixel count gives back the side |
| DroneVisionCalculator.CoverageLinearInAltitude | optimization/drone_vision_calculator.py:21-25 | footprint sides and ground sample distances scale linearly with altitude |
| DroneVisionCalculator.HorizontalLinear | optimization/drone_vision_calculator.py:21-24 | the width and the horizontal ground sample distance scale linearly with altitude |
| DroneVisionCalculator.VerticalLinear | optimization/drone_vision_calculator.py:22-25 | the height and the vertical ground sample distance scale linearly with altitude |
| DroneVisionCalculator.CoverageVanishesOnGround | optimization/drone_vision_calculator.py:21-23 | at altitude 0 the footprint has no width, height or area |
| DroneVisionCalculator.PixelToRealWorld | optimization/drone_vision_calculator.py:44-52 | metres are pixels times the ground sample distance on each axis, and fail exactly when the coverage does |
| DroneVisionCalculator.RealWorldToPixel | optimization/drone_vision_calculator.py:54-62 | pixels are metres over the ground sample distance truncated toward zero, and fail exactly when the coverage fails or a sample distance is 0 |
| DroneVisionCalculator.PixelRoundTrip | optimization/drone_vision_calculator.py:44-62 | for a non-degenerate footprint, pixels to metres and back gives the same pixels |
| DroneVisionCalculator.SamplesNonZero | optimization/drone_vision_calculator.py:21-25 | for a non-zero altitude and non-zero half-angle tangents neither ground sample distance is 0 |
| DroneVisionCalculator.AxisRoundTrip | optimization/drone_vision_calculator.py:60-62 | an integer scaled by a non-zero distance, divided back and truncated, is that integer |
| FormulaTest.FlatEarthNorthEast | formula_test.py:3-11 | with equal longitudes there is no east leg, the same point gives (0, 0), and the north leg has the sign of the latitude change |
| FormulaTest.NorthOnlyFromLatitudes | formula_test.py:5-8 | the north leg reads only the latitudes |
| FormulaTest.SwapNegates | formula_test.py:3-11 | measuring from the other end negates both legs |
| Maths.Abs | models/offboard_mission.py:60 | `abs` gives the non-negative one of `x` and `-x` |
| Maths.FloorMod | missions/square_wave_mission.py:49 | Python's float `%`: the remainder lies between 0 and the divisor, on the divisor's side, and `x - r` is a whole multiple of the divisor |
| Maths.Trunc | optimization/drone_vision_calculator.py:62 | `int` of a float drops the fractional part toward zero |
| Maths.TruncOfInteger | optimization/drone_vision_calculator.py:62 | `int` gives back an integer converted to a float |
| Text.Split | test/follower_drone_test.py:237 | `split` never returns an empty list |
| Text.SplitPiecesFree | test/follower_drone_test.py:237 | no piece of a split holds the separator |
| Text.JoinSplit | test/follower_drone_test.py:237 | joining the pieces with the separator gives back the text |
| Text.SplitJoin | test/follower_drone_test.py:237 | splitting a join of separator-free pieces gives back the pieces |
| Text.Strip | test/follower_drone_test.py:237 | the result of `strip` neither starts nor ends with whitespace |
| Text.StripPadded | test/follower_drone_test.py:237 | `strip` removes exactly the leading and trailing whitespace it is given |
| Text.StripIdempotent | test/follower_drone_test.py:237 | `strip` twice is `strip` once |
| Text.PyIntRoundTrip | test/follower_drone_test.py:239-242 | `int` reads back what `str` writes for every integer |
| Text.FormatHex | services/xbee_service.py:106 | the padded rendering is upper-case hexadecimal and at least `width` characters long |
| Text.FormatHexRoundTrip | services/xbee_service.py:106 | the padded rendering reads back as the number rendered |
| Text.FormatHexWidth | services/xbee_service.py:106 | a number below 16^width renders in exactly `width` characters |
| Json.EscapeChar | services/xbee_service.py:182 | a character is written as itself exactly when it is neither a quote, a backslash nor a control character |
| Json.UnescapeEscape | services/xbee_service.py:182 | every string `json.dumps` escapes is read back exactly by a JSON decoder |
| Json.EscapeHasNoNewline | services/xbee_service.py:182 | an escaped string never holds a raw newline, so removing newlines leaves its rendering alone |
| Json.EscapeRemoveSpaces | services/xbee_service.py:182 | removing spaces after escaping is the same as escaping the text with its spaces removed |
| Json.Remove | services/xbee_service.py:182 | `replace(c, "")` leaves no `c`, is no longer than its input, and adds no new characters |
| Json.Squeeze | services/xbee_service.py:182 | the two replaces leave neither spaces nor newlines |
| Json.SqueezeBlankFree | services/xbee_service.py:182 | text without spaces or newlines is left as it is |
| Json.SqueezeRenderedString | services/xbee_service.py:182 | a rendered string squeezes to the rendering of that string with its spaces removed |
| Json.SqueezeObject3 | services/xbee_service.py:175-182 | squeezing a three-entry dictionary with blank-free keys gives the compact dictionary of the squeezed values |

## Left out

- Real time: `asyncio.sleep`, `time.time()` and elapsed-time checks. Clock readings are inputs and sleeps issue no command.
- Concurrency: the XBee receive thread against the queue thread, and the interleaving of asyncio tasks. Enqueue, drain and dispatch are sequential calls, and the telemetry tasks appear in the trace only as the calls that start and cancel them.
- Telemetry subscriptions (models/connect.py, models/drone_status.py): the samples they store are inputs to each loop.
- The numeric values of sin, cos, tan, atan2, sqrt, haversine and GeographicLib's `Inverse`/`Direct`. They are parameters, and no accuracy is claimed.
- Floating-point rounding: reals are exact. Results such as the midpoint of test.py reducing to the arithmetic mean hold only in exact arithmetic.
- Float-to-text formatting (`:.1f`, `:.6f` and plain `str(float)`). A square-wave label is a value holding its step number and offset, and the float renderings in a `POS|` report are parameters of the function that builds it.
- UTF-8 encoding of outgoing and incoming messages: messages are strings of characters.
- `configure_xbee_api_mode`: raw AT-command serial I/O.
- Logging and `print` output, including the `print_coverage_info` report.
- GUI, camera, interactive and launcher scripts (ground_control/, services/camera_service.py, launcher.py, the `input()`-driven tests), the `SwarmDiscovery` stub and the scripts that call code not in the repository.
- `run_mission` of main.py: it is outside the velocity loop, and its background position task is telemetry.
- FollowerDrone.CustomMessageHandler: the radio transmissions and the vehicle calls are two separate logs, so the contract does not state that the acknowledgement goes out before the first vehicle call.
- WaypointMissions.TickCommand: the stop setpoint takes the attitude yaw as an input (`None` gives 0), although `current_attitude` is never assigned and reading it raises `AttributeError`. That pass cannot be reached as written anyway, because `connect` raises first.
- Text.ParseFloat: does not accept exponents, `inf`, `nan` or underscores. A report using them is treated as unparsable.
- Text.PyInt: does not accept underscores or non-ASCII digits. Field texts using them are treated as unparsable.
- Json.Render: renders only null, integers and strings, the values that appear in an envelope.
- DistanceCalculation.FindTargetPositionByVelocityAndYaw: has no contract of its own. Its one property (the result is the geodesic `Direct` and ignores the north/east split) is stated by `TargetIgnoresSplit`.

## Findings

| source | as written | input that shows it | evidently intended | confidence | as-written member | corrected member |
|---|---|---|---|---|---|---|
| missions/multiple_waypoint_mission.py:24 | `connect(sysid=sysid, system_address=system_address)` against `connect(self, system_address, port)` | any run of `run_waypoint_mission`: the keyword `sysid` names no parameter and `port` is missing, so `TypeError` is raised before any call | the keyword call `connect(system_address=…, port=…)` that the square-wave run makes, after which connect, initialise, the visits and end run in order (once `update_attitude` exists too) | not executed | MultipleWaypoints.WrittenCallRejected | MultipleWaypoints.RunWaypointMission |
| main.py:15 | `await asyncio.sleep(0.1)` in a file that never imports `asyncio` | readings `[None, position at the target]`: the first pass finds no position, and its sleep raises `NameError` | sleep and read again, stopping at the second reading, which is within a metre of the target | not executed | VelocityGoto.MissingFirstReading | VelocityGoto.GotoWithVelocity |
