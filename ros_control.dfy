/**
 * The micro-ROS node: each Twist message on /cmd_vel selects exactly one
 * motor function from the signs of linear.x and angular.z.
 */
module RosControl {
  import opened Drive

  /** The two fields of a Twist message the callback reads. */
  datatype Twist = Twist(linearX: real, angularZ: real)

  /**
   * First-match choice on the signs: linear.x decides whenever it is not
   * zero, angular.z is consulted only when linear.x is zero, and a message
   * with both zero stops the motors.
   */
  function Dispatch(msg: Twist): (op: Intent)
    ensures msg.linearX > 0.0 ==> op == Forward
    ensures msg.linearX < 0.0 ==> op == Backward
    ensures IsTurn(op) ==> msg.linearX == 0.0
    ensures op == Intent.TurnLeft <==> msg.linearX == 0.0 && msg.angularZ > 0.0
    ensures op == Intent.TurnRight <==> msg.linearX == 0.0 && msg.angularZ < 0.0
    ensures op == Stop <==> msg.linearX == 0.0 && msg.angularZ == 0.0
  {
    if msg.linearX > 0.0 then Forward
    else if msg.linearX < 0.0 then Backward
    else if msg.angularZ > 0.0 then Intent.TurnLeft
    else if msg.angularZ < 0.0 then Intent.TurnRight
    else Stop
  }

  /** angular.z has no influence on a message whose linear.x is not zero. */
  lemma LinearTakesPriority(x: real, a: real, b: real)
    requires x != 0.0
    ensures Dispatch(Twist(x, a)) == Dispatch(Twist(x, b))
    ensures Dispatch(Twist(x, a)) == (if x > 0.0 then Forward else Backward)
  {
  }

  /** The callback invoked for each received message. */
  method SubscriptionCallback(m: MotorDriver, msg: Twist)
    requires m.Valid()
    modifies m
    ensures m.Valid()
    ensures m.State() == Apply(old(m.State()), Dispatch(msg), m.profile)
    ensures m.calls == old(m.calls) + [Dispatch(msg)]
  {
    if msg.linearX > 0.0 {
      m.MoveForward();
    } else if msg.linearX < 0.0 {
      m.MoveBackward();
    } else if msg.angularZ > 0.0 {
      m.TurnLeft();
    } else if msg.angularZ < 0.0 {
      m.TurnRight();
    } else {
      m.StopMotors();
    }
  }

  /**
   * The motor part of setup(): the outputs are configured and stopMotors is
   * the one motor function called, so no command finds a nonzero duty left
   * over from before.
   */
  method Setup() returns (m: MotorDriver)
    ensures fresh(m) && m.Valid() && m.profile == TunedProfile
    ensures m.calls == [Stop]
    ensures m.leftDuty == 0 && m.rightDuty == 0
  {
    m := new MotorDriver(TunedProfile);
    m.StopMotors();
  }

  /**
   * After any sequence of messages the bridges are never both HIGH, and when
   * the last message asked for a move the wheels run at the tuned 220/180.
   */
  lemma {:induction false} MessagesKeepSafe(s: DriveState, msgs: seq<Twist>)
    requires Safe(s)
    ensures Safe(Run(s, DispatchAll(msgs), TunedProfile))
    ensures msgs != [] && Dispatch(msgs[|msgs| - 1]) != Stop ==>
      Run(s, DispatchAll(msgs), TunedProfile).leftDuty == 220 &&
      Run(s, DispatchAll(msgs), TunedProfile).rightDuty == 180
  {
    var ops := DispatchAll(msgs);
    RunKeepsSafe(s, ops, TunedProfile);
    if msgs != [] {
      DispatchAllLength(msgs);
      var n := |ops| - 1;
      assert ops == ops[..n] + [ops[n]];
      RunSnoc(s, ops[..n], ops[n], TunedProfile);
    }
  }

  /** The motor functions a sequence of messages selects, one per message. */
  function DispatchAll(msgs: seq<Twist>): seq<Intent>
    decreases |msgs|
  {
    if msgs == [] then [] else [Dispatch(msgs[0])] + DispatchAll(msgs[1..])
  }

  lemma {:induction false} DispatchAllLength(msgs: seq<Twist>)
    ensures |DispatchAll(msgs)| == |msgs|
    ensures forall i :: 0 <= i < |msgs| ==> DispatchAll(msgs)[i] == Dispatch(msgs[i])
    decreases |msgs|
  {
    if msgs != [] {
      DispatchAllLength(msgs[1..]);
    }
  }
}
