# Two-wheel-drive robot: motor actuation and its three deciders

This project models the part that the robot's three ESP32 sketches share:
the differential-drive actuation layer, plus the three small deciders that
drive it.

The actuation state has six outputs. Four are the direction pins of a dual H-bridge:
IN1/IN2 for the left motor and IN3/IN4 for the right one. Two are the PWM duties on
the ENA/ENB channels. Five motor functions overwrite these outputs in place:
`moveForward`, `moveBackward`, `turnLeft`, `turnRight` and `stopMotors`.
The sketches differ in the duties they write:
- the micro-ROS sketch writes `leftSpeed` = 220 and `rightSpeed` = 180;
- the web and ultrasonic sketches write one `motorSpeed` = 255 to both wheels.

The model has four modules:

- `Drive` (drive.dfy) holds the six-field state record `DriveState` and the
  direction table (`Directions`, `BridgeInputs`). `Apply` is the effect of one
  motor function and `Run` the effect of several. The class `MotorDriver` has
  the six fields as mutable state and one method per motor function. Each
  method writes the pins in the sketches' order and is proved equal to `Apply`.
- `RosControl` (ros_control.dfy) covers the `/cmd_vel` subscription callback.
  `Dispatch` is its first-match choice on the signs of `linear.x` and
  `angular.z`. `SubscriptionCallback` is the if/else chain that calls the
  matching driver method. `Setup` is the motor part of `setup()`.
- `WebControl` (web_control.dfy) covers the `server.on` route table: a map
  from path to handler, the reply each path gets, and `HandleRequest`,
  which runs the handler.
- `ObstacleAvoidance` (obstacle.dfy) covers the ultrasonic sketch.
  `GetDistance` converts an echo time to centimetres. `ObstacleAhead` is the
  obstacle test. `CycleEvents` is the trace of one `loop()` iteration: the
  sample, each motor call and each `delay` as a hold. The class
  `ObstacleRobot` has `setup()` as its constructor and `loop()` as `Loop`,
  which appends that iteration's events and updates the motors.

The constants are kept as the code has them:
- `OBSTACLE_DISTANCE` = 10. The header comment at ultrasonic_senor_2WD.cpp:5
  speaks of about 20 cm; the model follows the constant.
- `TURN_DURATION` = 500.
- the 500 ms settle holds and the 100 ms sample period;
- the 30000 us `pulseIn` timeout.

The model also assumes a power-on state: all four direction pins LOW and
both duties 0, as after `pinMode` and `ledcSetup`.

## Model

| member | source | states |
|---|---|---|
| Drive.Directions | ROS2_wifi_2WD_control.cpp:148-188 | the wheel directions of each move: the left wheel runs ahead exactly for forward and turnRight, the right wheel exactly for forward and turnLeft, so the two wheels turn in opposite directions exactly for the two turns |
| Drive.BridgeInputs | ROS2_wifi_2WD_control.cpp:148-188 | the levels a direction puts on an H-bridge's two inputs always differ; the first input is HIGH exactly for driving ahead |
| Drive.Apply | ROS2_wifi_2WD_control.cpp:148-193 | a move leaves each bridge complementary (IN1 != IN2, IN3 != IN4) and writes leftSpeed/rightSpeed; stopMotors writes 0 to both duties and leaves all four direction pins as they were |
| Drive.PinPatterns | camera_2WB_web_control.cpp:79-119 | the pin levels are forward H,L,H,L, backward L,H,L,H, left L,H,H,L and right H,L,L,H, whatever the previous state |
| Drive.BackwardInvertsForward | ROS2_wifi_2WD_control.cpp:148-166 | moveBackward writes the inverse of every direction pin moveForward writes, and the same two duties |
| Drive.BridgeRoundTrip | ROS2_wifi_2WD_control.cpp:148-188 | reading a bridge's two inputs back gives the direction they were set for |
| Drive.MoveDirections | ROS2_wifi_2WD_control.cpp:168-188 | after a move each wheel runs in the table's direction; the two wheels differ exactly after turnLeft and turnRight, and match after forward and backward |
| Drive.ApplyKeepsSafe | ROS2_wifi_2WD_control.cpp:148-193 | no motor function leaves a bridge with both inputs HIGH, and each keeps the duties in [0, 255] |
| Drive.RunKeepsSafe | ROS2_wifi_2WD_control.cpp:148-193 | any sequence of motor functions keeps both bridges free of a both-HIGH pair and the duties in [0, 255] |
| Drive.RunSnoc | ROS2_wifi_2WD_control.cpp:148-193 | running one more motor function applies it to the outputs reached so far |
| Drive.LastMoveWins | ROS2_wifi_2WD_control.cpp:63-84 | when the last command is a move, the outputs depend on that command alone, not on the earlier ones or the starting state |
| Drive.ApplyIdempotent | camera_2WB_web_control.cpp:79-124 | each motor function, stop included, gives the same outputs when issued twice as when issued once |
| Drive.FullSpeedEqualDuties | camera_2WB_web_control.cpp:79-119 | with the single motorSpeed of 255, every move writes 255 to both PWM channels |
| Drive.WritesAppend | ROS2_wifi_2WD_control.cpp:148-156 | making two batches of writes one after the other ends where the second batch ends from the first's result, and passes through the states of both batches |
| Drive.SourceWritesBrake | ROS2_wifi_2WD_control.cpp:148-193 | the digitalWrite and ledcWrite calls, in the order written, end in the outputs of Apply; on the way a bridge has both inputs HIGH exactly when a move drives a wheel ahead while that bridge's second input is HIGH, i.e. when a wheel in reverse is switched to ahead |
| Drive.ForwardAfterBackwardBrakes | ROS2_wifi_2WD_control.cpp:148-166 | moveForward after moveBackward passes through a state with IN1 and IN2 both HIGH |
| Drive.LowFirstKeepsSafe | ROS2_wifi_2WD_control.cpp:148-193 | writing each bridge's LOW input before its HIGH one ends in the same outputs as Apply and never passes through a both-HIGH bridge |
| Drive.MotorDriver.constructor | ROS2_wifi_2WD_control.cpp:90-98 | after the pins and channels are configured, all pins are LOW, both duties 0 and no motor function has been called; from then on the outputs are always those of running the logged calls from that state |
| Drive.MotorDriver.MoveForward | ROS2_wifi_2WD_control.cpp:148-156 | the in-place writes produce exactly the forward outputs of Apply, keep the outputs safe, and add this one call to the driver's call log |
| Drive.MotorDriver.MoveBackward | ROS2_wifi_2WD_control.cpp:158-166 | the in-place writes produce exactly the backward outputs of Apply, keep the outputs safe, and add this one call to the driver's call log |
| Drive.MotorDriver.TurnLeft | ROS2_wifi_2WD_control.cpp:168-177 | the in-place writes produce exactly the turn-left outputs of Apply, keep the outputs safe, and add this one call to the driver's call log |
| Drive.MotorDriver.TurnRight | ROS2_wifi_2WD_control.cpp:179-188 | the in-place writes produce exactly the turn-right outputs of Apply, keep the outputs safe, and add this one call to the driver's call log |
| Drive.MotorDriver.StopMotors | ROS2_wifi_2WD_control.cpp:190-193 | both duties become 0, every direction pin keeps its level, and the call is added to the call log |
| Drive.MotorDriver.Perform | camera_2WB_web_control.cpp:155-159 | running the motor function an intent names gives the outputs of Apply for that intent and logs exactly that call |
| RosControl.Dispatch | ROS2_wifi_2WD_control.cpp:73-83 | linear.x > 0 selects forward and linear.x < 0 backward, whatever angular.z is; a turn is chosen only when linear.x is 0, left for angular.z > 0 and right for angular.z < 0; stop exactly when both are 0 |
| RosControl.LinearTakesPriority | ROS2_wifi_2WD_control.cpp:73-76 | when linear.x is not 0, angular.z does not influence the choice |
| RosControl.SubscriptionCallback | ROS2_wifi_2WD_control.cpp:63-84 | a message runs exactly the one motor function Dispatch picks (the call log grows by that call alone), and the outputs stay safe |
| RosControl.Setup | ROS2_wifi_2WD_control.cpp:87-99 | the motor part of setup calls stopMotors and no other motor function (the call log is exactly [stop]), so both duties are 0 before any command can arrive |
| RosControl.DispatchAllLength | ROS2_wifi_2WD_control.cpp:63-84 | a sequence of messages selects exactly one motor function per message, in order |
| RosControl.MessagesKeepSafe | ROS2_wifi_2WD_control.cpp:63-84 | any sequence of messages leaves both bridges free of a both-HIGH pair, and when the last message selects a move the duties are the tuned 220 (left) and 180 (right) |
| WebControl.Route | camera_2WB_web_control.cpp:152-159 | exactly the six paths /, /forward, /backward, /left, /right and /stop have a handler, and only / serves the page |
| WebControl.ReplyTo | camera_2WB_web_control.cpp:126-159 | a registered path gets status 200 and any other path 404; the page is served exactly for /, and the reply is "OK" exactly for the five action routes |
| WebControl.AfterRequest | camera_2WB_web_control.cpp:152-159 | the four moving routes leave both bridges complementary at the profile's duties, /stop zeroes both duties and keeps the pins, and every other path leaves the outputs unchanged |
| WebControl.RouteCalls | camera_2WB_web_control.cpp:152-159 | a request calls at most one motor function, and one exactly for the five action routes |
| WebControl.ActionRoutes | camera_2WB_web_control.cpp:155-159 | each action route runs exactly its matching motor function |
| WebControl.NonActionLeavesMotors | camera_2WB_web_control.cpp:126-152 | serving the page at /, or any path with no route, leaves the motor outputs unchanged |
| WebControl.RepeatedRequest | camera_2WB_web_control.cpp:79-124 | requesting the same path twice leaves the same outputs as requesting it once |
| WebControl.HandleRequest | camera_2WB_web_control.cpp:152-159 | a request gets the reply of ReplyTo, changes the outputs as its route prescribes, keeping them safe, and calls only its route's motor function |
| WebControl.Setup | camera_2WB_web_control.cpp:128-141 | the outputs are configured but no motor function is called (the call log is empty), so they keep their power-on state |
| ObstacleAvoidance.GetDistance | ultrasonic_senor_2WD.cpp:116-137 | the result is the echo time divided by 58.8, truncated; it lies in [0, 510], and a timeout's 0 gives 0 |
| ObstacleAvoidance.ObstacleAhead | ultrasonic_senor_2WD.cpp:86 | a reading counts as an obstacle exactly when it is 1 to 9 cm; the 0 of a pulseIn timeout never does |
| ObstacleAvoidance.CycleEvents | ultrasonic_senor_2WD.cpp:76-111 | an iteration starts with its distance sample and ends with the 100 ms hold; it has 8 events (sample, three calls with their holds, final hold) when avoiding and 3 (sample, moveForward, final hold) otherwise |
| ObstacleAvoidance.AvoidShape | ultrasonic_senor_2WD.cpp:89-101 | the avoidance branch calls stop, turnRight, stop in that order and takes no sample |
| ObstacleAvoidance.CycleShape | ultrasonic_senor_2WD.cpp:76-111 | an iteration reads exactly one sample; it runs stop, turnRight, stop exactly when 0 < distance < 10, and otherwise a single moveForward |
| ObstacleAvoidance.CycleState | ultrasonic_senor_2WD.cpp:86-107 | after avoidance both duties are 0 and the pins stay in the turn-right pattern (H,L,L,H); after any other reading, a reading of 0 or less included, the pins are the forward pattern (H,L,H,L) at the profile's duties |
| ObstacleAvoidance.CycleStateFollowsTrace | ultrasonic_senor_2WD.cpp:86-107 | the outputs after an iteration are those of running, in order, the motor functions its trace records |
| ObstacleAvoidance.CruiseAtFullSpeed | ultrasonic_senor_2WD.cpp:103-107 | an iteration without an obstacle leaves the forward pattern H,L,H,L with duty 255 on both wheels |
| ObstacleAvoidance.RunSamples | ultrasonic_senor_2WD.cpp:76-78 | over any number of iterations, the samples in the trace are exactly the readings, one per iteration and in order |
| ObstacleAvoidance.RunActions | ultrasonic_senor_2WD.cpp:76-111 | the motor functions of several iterations are those of the first iteration followed by those of the rest |
| ObstacleAvoidance.ScriptedRun | ultrasonic_senor_2WD.cpp:76-111 | two clear readings, an obstacle reading and a clear one (such as 50, 50, 8, 50 cm) give forward, forward, stop, turnRight, stop, forward, and the trace's samples are exactly the four readings, one per iteration, so none falls inside the avoidance sequence |
| ObstacleAvoidance.ObstacleRobot.constructor | ultrasonic_senor_2WD.cpp:46-71 | setup calls stopMotors and no other motor function, then holds 1000 ms, so both duties are 0 before the first iteration; the trace's motor functions are exactly the driver's call log |
| ObstacleAvoidance.ObstacleRobot.React | ultrasonic_senor_2WD.cpp:86-107 | after the reading, exactly stop, turnRight, stop (with their holds) are called for an obstacle and exactly moveForward otherwise, leaving the outputs CycleState gives |
| ObstacleAvoidance.ObstacleRobot.Loop | ultrasonic_senor_2WD.cpp:76-111 | one iteration converts the echo time, appends exactly that iteration's events to the trace, and leaves the outputs CycleState gives for the reading; the driver's call log grows by exactly the iteration's motor functions |

## Left out

- Network setup is not modelled. This covers the WiFi connect-and-retry loops, the micro-ROS transport, support, node, subscription and executor, `rclc_executor_spin_some`, and `WebServer` start and `handleClient`. All of it is I/O through foreign libraries. How the executor delivers messages (ON_NEW_DATA, a 10 ms spin) is not modelled either; `Drive.LastMoveWins` states only that a later move overrides everything before it.
- The control page's HTML (`getHTML`), the camera URL, the payload of each `server.send` and all `Serial` output are not modelled. They are text or logging only; the page is represented by the `Page` reply.
- The reply for an unregistered path comes from the `WebServer` library, which is not part of this model. It is represented only by a `NotFound` reply with status 404 and unchanged outputs.
- The ultrasonic trigger pulse and the timing inside `pulseIn` are hardware timing. The value `pulseIn` returns is an input `duration` in [0, 30000], with 0 for a timeout.
- `delay` and `delayMicroseconds` are not elapsed time. The loop's and setup's `delay` calls become `Hold` events in the trace; the trigger-pulse microsecond delays are omitted.
- Floating point is not modelled. `linear.x` and `angular.z` are `real`. A NaN `linear.x` fails every comparison in the source and falls through to `stopMotors`; the model cannot express that case.
- `ObstacleAvoidance.GetDistance`: `duration / 58.8` is computed exactly as `duration * 10 / 588` rather than in double precision. The two agree on every duration in [0, 30000]: away from exact multiples the exact quotient is at least 1/588 below the next integer, far more than the rounding error, and the double nearest 58.8 lies just below it, so at a multiple of 294 the double quotient is not below the integer and truncates to it.
- Atomicity of a motor function: `Drive.MotorDriver` and `Apply` treat each motor function as one update of the outputs. The individual writes and the states between them are modelled separately, as `Drive.SourceWrites`; see "## Findings". The both-HIGH guarantee of `Drive.ApplyKeepsSafe` and `Drive.RunKeepsSafe` holds between motor functions only.
- Hardware configuration is reduced to the six named fields. Pin numbers, PWM frequency and resolution, and channel numbers are left out.
- RosControl.Setup: only the motor part of `setup()` is modelled. That stopMotors is called before the WiFi and micro-ROS setup is not modelled, because the network is not. The model states that stopMotors is the one motor function setup calls.
- Power-on levels are not read from the source. `Drive.MotorDriver.constructor` assumes LOW pins and zero duties after `pinMode` and `ledcSetup`.
- The comment on the first line of camera_2WB_web_control.cpp says that left and right are swapped in that robot's wiring. Wiring is not modelled; the model follows the pin names the code writes.
- CycleEvents: its own contract fixes the first and last events and the length; that the iteration takes no sample besides the first is stated by `ObstacleAvoidance.CycleShape`, which is proved from it.
- The endless repetition of `loop()` is not a method. `ObstacleAvoidance.RunEvents` describes any finite number of iterations as a specification.

## Findings

| source | as written | input that shows it | evidently intended | confidence | as-written member | corrected member |
|---|---|---|---|---|---|---|
| ROS2_wifi_2WD_control.cpp:148-188 | each move writes a bridge's first input (IN1 or IN3) before its second, in all three sketches; to drive a wheel ahead that raises the first input while the second is still HIGH | moveBackward (IN1 LOW, IN2 HIGH) followed by moveForward: after the write at line 149, IN1 and IN2 are both HIGH | no state between two writes has a bridge with both inputs HIGH; the input going LOW is written before the one going HIGH | low; not executed; on an L298N-style driver the moment is a short brake | Drive.SourceWritesBrake, Drive.ForwardAfterBackwardBrakes | Drive.LowFirstKeepsSafe |

Only a wheel in reverse that is switched to ahead is affected. Switching a wheel into reverse writes IN1 (or IN3) LOW first and passes through LOW, LOW. The rest of the model uses `Drive.Apply`, which is the end state of both orders, as `Drive.SourceWritesBrake` and `Drive.LowFirstKeepsSafe` prove.
