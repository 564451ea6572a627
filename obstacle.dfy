/**
 * The ultrasonic obstacle-avoidance node. Each iteration of loop() takes one
 * distance sample; an obstacle closer than OBSTACLE_DISTANCE (but a reading
 * above 0) triggers stop, turn right, stop, each held for a while, and
 * anything else drives forward. delay() calls are recorded as holds in a
 * trace rather than as elapsed time.
 */
module ObstacleAvoidance {
  import opened Drive

  /** Obstacle threshold in cm (a header comment speaks of about 20 cm). */
  const ObstacleDistance: int := 10
  /** Hold while turning right, in ms. */
  const TurnDuration: nat := 500
  /** Hold after each stop of the avoidance sequence, in ms. */
  const SettleMs: nat := 500
  /** Hold at the end of every iteration, in ms. */
  const SamplePeriodMs: nat := 100
  /** Hold at the end of setup(), in ms. */
  const StartupHoldMs: nat := 1000
  /** pulseIn timeout in microseconds; it returns 0 when it expires. */
  const PulseTimeoutUs: int := 30000

  /**
   * Echo time in microseconds to centimetres, duration / 58.8 truncated,
   * computed exactly as duration * 10 / 588.
   */
  function GetDistance(duration: int): (cm: int)
    requires 0 <= duration <= PulseTimeoutUs
    ensures cm * 588 <= duration * 10 < (cm + 1) * 588
    ensures 0 <= cm <= 510
    ensures duration == 0 ==> cm == 0
  {
    duration * 10 / 588
  }

  /**
   * The test of loop(): a reading above 0 and below the threshold. The 0 a
   * pulseIn timeout produces never counts as an obstacle.
   */
  function ObstacleAhead(distance: int): (near: bool)
    ensures near <==> 1 <= distance <= 9
    ensures distance == GetDistance(0) ==> !near
  {
    distance > 0 && distance < ObstacleDistance
  }

  /** What one iteration does, in order. */
  datatype Event = Sample(cm: int) | Act(op: Intent) | Hold(ms: nat)

  /** The motor function an event calls, if any. */
  function ActionOf(e: Event): seq<Intent> {
    if e.Act? then [e.op] else []
  }

  /** The distance an event samples, if any. */
  function SampleOf(e: Event): seq<int> {
    if e.Sample? then [e.cm] else []
  }

  /** The motor functions called in a trace, in order. */
  function Actions(es: seq<Event>): seq<Intent>
    decreases |es|
  {
    if es == [] then [] else ActionOf(es[0]) + Actions(es[1..])
  }

  /** The distance samples taken in a trace, in order. */
  function Samples(es: seq<Event>): seq<int>
    decreases |es|
  {
    if es == [] then [] else SampleOf(es[0]) + Samples(es[1..])
  }

  lemma {:induction false} ActionsAppend(a: seq<Event>, b: seq<Event>)
    ensures Actions(a + b) == Actions(a) + Actions(b)
    decreases |a|
  {
    if a == [] {
      assert a + b == b;
    } else {
      assert (a + b)[0] == a[0] && (a + b)[1..] == a[1..] + b;
      ActionsAppend(a[1..], b);
      assert ActionOf(a[0]) + (Actions(a[1..]) + Actions(b)) == Actions(a) + Actions(b);
    }
  }

  lemma {:induction false} SamplesAppend(a: seq<Event>, b: seq<Event>)
    ensures Samples(a + b) == Samples(a) + Samples(b)
    decreases |a|
  {
    if a == [] {
      assert a + b == b;
    } else {
      assert (a + b)[0] == a[0] && (a + b)[1..] == a[1..] + b;
      SamplesAppend(a[1..], b);
      assert SampleOf(a[0]) + (Samples(a[1..]) + Samples(b)) == Samples(a) + Samples(b);
    }
  }

  /** The stop, turn-right, stop sequence with its holds. */
  const AvoidEvents: seq<Event> := [
    Act(Stop), Hold(SettleMs),
    Act(Intent.TurnRight), Hold(TurnDuration),
    Act(Stop), Hold(SettleMs)
  ]

  /**
   * The events of one iteration: the sample comes first, the iteration ends
   * with the 100 ms hold, and in between there is either the avoidance
   * sequence or a single forward move.
   */
  function CycleEvents(distance: int): (es: seq<Event>)
    ensures |es| == if ObstacleAhead(distance) then 8 else 3
    ensures es[0] == Sample(distance) && es[|es| - 1] == Hold(SamplePeriodMs)
  {
    [Sample(distance)]
      + ((if ObstacleAhead(distance) then AvoidEvents else [Act(Forward)])
         + [Hold(SamplePeriodMs)])
  }

  /** Actions and samples of a trace that starts with a given event. */
  lemma {:induction false} Cons(e: Event, es: seq<Event>)
    ensures Actions([e] + es) == ActionOf(e) + Actions(es)
    ensures Samples([e] + es) == SampleOf(e) + Samples(es)
  {
    assert ([e] + es)[1..] == es;
  }

  lemma Single(e: Event)
    ensures Actions([e]) == ActionOf(e)
    ensures Samples([e]) == SampleOf(e)
  {
    assert [e][1..] == [];
  }

  lemma AvoidShape()
    ensures Actions(AvoidEvents) == [Stop, Intent.TurnRight, Stop]
    ensures Samples(AvoidEvents) == []
  {
    var t1 := [Hold(SettleMs)];
    Single(Hold(SettleMs));
    var t2 := [Act(Stop)] + t1;
    Cons(Act(Stop), t1);
    var t3 := [Hold(TurnDuration)] + t2;
    Cons(Hold(TurnDuration), t2);
    var t4 := [Act(Intent.TurnRight)] + t3;
    Cons(Act(Intent.TurnRight), t3);
    var t5 := [Hold(SettleMs)] + t4;
    Cons(Hold(SettleMs), t4);
    var t6 := [Act(Stop)] + t5;
    Cons(Act(Stop), t5);
    assert t6 == AvoidEvents;
  }

  /**
   * One sample per iteration, and exactly the avoidance functions when an
   * obstacle is ahead, else a single forward move.
   */
  lemma CycleShape(distance: int)
    ensures Samples(CycleEvents(distance)) == [distance]
    ensures Actions(CycleEvents(distance)) ==
      if ObstacleAhead(distance) then [Stop, Intent.TurnRight, Stop] else [Forward]
  {
    var mid := if ObstacleAhead(distance) then AvoidEvents else [Act(Forward)];
    Single(Hold(SamplePeriodMs));
    if ObstacleAhead(distance) {
      AvoidShape();
    } else {
      Single(Act(Forward));
    }
    ActionsAppend(mid, [Hold(SamplePeriodMs)]);
    SamplesAppend(mid, [Hold(SamplePeriodMs)]);
    Cons(Sample(distance), mid + [Hold(SamplePeriodMs)]);
  }

  /**
   * Outputs after one iteration that read distance. Avoidance leaves both
   * duties at 0 with the bridges in the turn-right pattern (left wheel ahead,
   * right wheel in reverse); any other reading, including the 0 of a pulseIn
   * timeout, leaves the forward pattern at the profile's duties.
   */
  function CycleState(s: DriveState, distance: int, p: Profile): (r: DriveState)
    ensures ObstacleAhead(distance) ==> r == DriveState(High, Low, Low, High, 0, 0)
    ensures !ObstacleAhead(distance) ==>
      r == DriveState(High, Low, High, Low, p.leftSpeed, p.rightSpeed)
  {
    if ObstacleAhead(distance) then
      Apply(Apply(Apply(s, Stop, p), Intent.TurnRight, p), Stop, p)
    else
      Apply(s, Forward, p)
  }

  /** The outputs after an iteration are those of running the motor functions its trace records. */
  lemma CycleStateFollowsTrace(s: DriveState, distance: int, p: Profile)
    ensures CycleState(s, distance, p) == Run(s, Actions(CycleEvents(distance)), p)
  {
    CycleShape(distance);
    RunShort(s, if ObstacleAhead(distance) then Stop else Forward, Intent.TurnRight, Stop, p);
  }

  /** With the single motorSpeed, cruising drives both wheels ahead at 255. */
  lemma CruiseAtFullSpeed(s: DriveState, distance: int)
    requires !ObstacleAhead(distance)
    ensures CycleState(s, distance, FullSpeedProfile) == DriveState(High, Low, High, Low, 255, 255)
  {
  }

  /** The events of one iteration per distance, in order. */
  function RunEvents(distances: seq<int>): seq<Event>
    decreases |distances|
  {
    if distances == [] then [] else CycleEvents(distances[0]) + RunEvents(distances[1..])
  }

  /** An iteration put in front of a trace puts its one sample in front of the trace's. */
  lemma PrependCycleSamples(distance: int, t: seq<Event>)
    ensures Samples(CycleEvents(distance) + t) == [distance] + Samples(t)
  {
    SamplesAppend(CycleEvents(distance), t);
    CycleShape(distance);
  }

  /** Each iteration reads exactly one sample: the samples are the readings. */
  lemma {:induction false} RunSamples(distances: seq<int>)
    ensures Samples(RunEvents(distances)) == distances
    decreases |distances|
  {
    if distances != [] {
      var d, rest := distances[0], distances[1..];
      PrependCycleSamples(d, RunEvents(rest));
      RunSamples(rest);
      assert distances == [d] + rest;
    }
  }

  /** Appending an iteration to a trace appends that iteration's motor functions. */
  lemma AppendCycle(t: seq<Event>, distance: int)
    ensures Actions(t + CycleEvents(distance)) ==
      Actions(t) + (if ObstacleAhead(distance) then [Stop, Intent.TurnRight, Stop] else [Forward])
  {
    ActionsAppend(t, CycleEvents(distance));
    CycleShape(distance);
  }

  /** The motor functions of a run are those of its iterations, in order. */
  lemma RunActions(d: int, rest: seq<int>)
    ensures Actions(RunEvents([d] + rest)) ==
      (if ObstacleAhead(d) then [Stop, Intent.TurnRight, Stop] else [Forward])
        + Actions(RunEvents(rest))
  {
    assert ([d] + rest)[0] == d && ([d] + rest)[1..] == rest;
    ActionsAppend(CycleEvents(d), RunEvents(rest));
    CycleShape(d);
  }

  /**
   * Two clear readings, one obstacle, one clear reading (such as 50, 50, 8
   * and 50 cm) give forward, forward, the uninterrupted stop / turn-right /
   * stop sequence, and forward.
   */
  lemma ScriptedRun(d1: int, d2: int, d3: int, d4: int)
    requires !ObstacleAhead(d1) && !ObstacleAhead(d2) && ObstacleAhead(d3) && !ObstacleAhead(d4)
    ensures Actions(RunEvents([d1, d2, d3, d4])) ==
      [Forward, Forward, Stop, Intent.TurnRight, Stop, Forward]
    ensures Samples(RunEvents([d1, d2, d3, d4])) == [d1, d2, d3, d4]
  {
    RunSamples([d1, d2, d3, d4]);
    var empty: seq<int> := [];
    assert Actions(RunEvents(empty)) == [];
    RunActions(d4, empty);
    assert [d4] + empty == [d4];
    RunActions(d3, [d4]);
    assert [d3] + [d4] == [d3, d4];
    RunActions(d2, [d3, d4]);
    assert [d2] + [d3, d4] == [d2, d3, d4];
    RunActions(d1, [d2, d3, d4]);
    assert [d1] + [d2, d3, d4] == [d1, d2, d3, d4];
  }

  /** The autonomous node: its motor outputs and what it has done so far. */
  class ObstacleRobot {
    const motors: MotorDriver
    var trace: seq<Event>

    /** The motor functions the trace records are exactly those the driver ran. */
    ghost predicate Valid()
      reads this, motors
    {
      motors.Valid() && motors.profile == FullSpeedProfile && motors.calls == Actions(trace)
    }

    /** setup(): configure the outputs, stop the motors, wait one second. */
    constructor ()
      ensures Valid() && fresh(motors)
      ensures motors.calls == [Stop]
      ensures motors.leftDuty == 0 && motors.rightDuty == 0
      ensures trace == [Act(Stop), Hold(StartupHoldMs)]
    {
      motors := new MotorDriver(FullSpeedProfile);
      trace := [];
      new;
      motors.StopMotors();
      trace := trace + [Act(Stop), Hold(StartupHoldMs)];
      assert trace == [Act(Stop)] + [Hold(StartupHoldMs)];
      Single(Hold(StartupHoldMs));
      Cons(Act(Stop), [Hold(StartupHoldMs)]);
    }

    /**
     * The part of loop() after the reading: the motor functions it calls and
     * the delays between them, as the events between the sample and the final
     * hold.
     */
    method React(distance: int) returns (events: seq<Event>)
      requires motors.Valid()
      modifies motors
      ensures motors.Valid()
      ensures events == if ObstacleAhead(distance) then AvoidEvents else [Act(Forward)]
      ensures motors.State() == CycleState(old(motors.State()), distance, motors.profile)
      ensures motors.calls == old(motors.calls) +
        if ObstacleAhead(distance) then [Stop, Intent.TurnRight, Stop] else [Forward]
    {
      if distance > 0 && distance < ObstacleDistance {
        motors.StopMotors();
        events := [Act(Stop), Hold(SettleMs)];
        motors.TurnRight();
        events := events + [Act(Intent.TurnRight), Hold(TurnDuration)];
        motors.StopMotors();
        events := events + [Act(Stop), Hold(SettleMs)];
      } else {
        motors.MoveForward();
        events := [Act(Forward)];
      }
    }

    /** One iteration of loop(), given what pulseIn returned. */
    method Loop(duration: int)
      requires Valid()
      requires 0 <= duration <= PulseTimeoutUs
      modifies this, motors
      ensures Valid()
      ensures trace == old(trace) + CycleEvents(GetDistance(duration))
      ensures motors.State() == CycleState(old(motors.State()), GetDistance(duration), motors.profile)
      ensures motors.calls == old(motors.calls) + Actions(CycleEvents(GetDistance(duration)))
    {
      var distance := GetDistance(duration);
      var events := React(distance);
      AppendCycle(trace, distance);
      CycleShape(distance);
      trace := trace + ([Sample(distance)] + (events + [Hold(SamplePeriodMs)]));
    }
  }
}
