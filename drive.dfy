/**
 * Differential-drive actuation shared by the three sketches.
 *
 * Each wheel is driven through one half of a dual H-bridge: IN1/IN2 choose
 * the direction of the left motor, IN3/IN4 that of the right motor, and the
 * enable inputs ENA/ENB receive a PWM duty on channels 0 and 1 (8-bit
 * resolution, so a duty lies in [0, 255]). The six outputs form the state
 * that the five motor functions overwrite.
 */
module Drive {

  /** Largest duty an 8-bit PWM channel accepts. */
  const DutyMax: int := 255

  datatype Option<+T> = None | Some(value: T)

  /** Level written by digitalWrite. */
  datatype Level = Low | High

  /** The five motor functions, as the deciders name the one they pick. */
  datatype Intent = Forward | Backward | TurnLeft | TurnRight | Stop

  /** Direction in which one wheel is driven. */
  datatype Direction = Ahead | Reverse

  /** Duties the move functions write to the left and right PWM channels. */
  datatype Profile = Profile(leftSpeed: int, rightSpeed: int) {
    predicate Valid() {
      0 <= leftSpeed <= DutyMax && 0 <= rightSpeed <= DutyMax
    }
  }

  /** leftSpeed = 220 and rightSpeed = 180 in the micro-ROS sketch. */
  const TunedProfile: Profile := Profile(220, 180)

  /** The single motorSpeed = 255 of the web and ultrasonic sketches. */
  const FullSpeedProfile: Profile := Profile(255, 255)

  /** The six outputs: four direction pins and two PWM duties. */
  datatype DriveState = DriveState(
    in1: Level, in2: Level, in3: Level, in4: Level,
    leftDuty: int, rightDuty: int)

  /** Outputs after pinMode and ledcSetup, before any motor function ran. */
  const PowerOn: DriveState := DriveState(Low, Low, Low, Low, 0, 0)

  /** Neither H-bridge has both of its inputs HIGH. */
  predicate NoBothHigh(s: DriveState) {
    !(s.in1 == High && s.in2 == High) && !(s.in3 == High && s.in4 == High)
  }

  /** The outputs every reachable state satisfies. */
  predicate Safe(s: DriveState) {
    NoBothHigh(s) && 0 <= s.leftDuty <= DutyMax && 0 <= s.rightDuty <= DutyMax
  }

  predicate IsTurn(op: Intent) {
    op == TurnLeft || op == TurnRight
  }

  /**
   * The wheel directions of a move: both ahead, both reversed, or opposite
   * directions for the in-place turns (left wheel first).
   */
  function Directions(op: Intent): (d: (Direction, Direction))
    requires op != Stop
    ensures IsTurn(op) <==> d.0 != d.1
    ensures d.0 == Ahead <==> op == Forward || op == TurnRight
    ensures d.1 == Ahead <==> op == Forward || op == TurnLeft
  {
    match op
    case Forward => (Ahead, Ahead)
    case Backward => (Reverse, Reverse)
    case TurnLeft => (Reverse, Ahead)
    case TurnRight => (Ahead, Reverse)
  }

  /** Levels an H-bridge's two inputs get for a wheel direction. */
  function BridgeInputs(dir: Direction): (p: (Level, Level))
    ensures p.0 != p.1
    ensures p.0 == High <==> dir == Ahead
  {
    if dir == Ahead then (High, Low) else (Low, High)
  }

  /** Direction an H-bridge drives its wheel in, if its inputs differ. */
  function BridgeDirection(a: Level, b: Level): (d: Option<Direction>)
    ensures d.None? <==> a == b
  {
    match (a, b)
    case (High, Low) => Some(Ahead)
    case (Low, High) => Some(Reverse)
    case _ => None
  }

  function LeftDirection(s: DriveState): Option<Direction> {
    BridgeDirection(s.in1, s.in2)
  }

  function RightDirection(s: DriveState): Option<Direction> {
    BridgeDirection(s.in3, s.in4)
  }

  /**
   * Effect of one motor function on the outputs. A move sets both bridges
   * from the direction table and writes the profile's duties, whatever the
   * outputs were; stopMotors writes 0 to both duties and nothing else.
   */
  function Apply(s: DriveState, op: Intent, p: Profile): (r: DriveState)
    ensures op == Stop ==> r.leftDuty == 0 && r.rightDuty == 0
    ensures op == Stop ==> r.in1 == s.in1 && r.in2 == s.in2 && r.in3 == s.in3 && r.in4 == s.in4
    ensures op != Stop ==> r.in1 != r.in2 && r.in3 != r.in4
    ensures op != Stop ==> r.leftDuty == p.leftSpeed && r.rightDuty == p.rightSpeed
  {
    if op == Stop then
      s.(leftDuty := 0, rightDuty := 0)
    else
      var (left, right) := Directions(op);
      var (a, b) := BridgeInputs(left);
      var (c, d) := BridgeInputs(right);
      DriveState(a, b, c, d, p.leftSpeed, p.rightSpeed)
  }

  /** Effect of several motor functions called one after another. */
  function Run(s: DriveState, ops: seq<Intent>, p: Profile): DriveState
    decreases |ops|
  {
    if ops == [] then s else Run(Apply(s, ops[0], p), ops[1..], p)
  }

  /** Running one or three motor functions applies them in order. */
  lemma RunShort(s: DriveState, a: Intent, b: Intent, c: Intent, p: Profile)
    ensures Run(s, [a], p) == Apply(s, a, p)
    ensures Run(s, [a, b, c], p) == Apply(Apply(Apply(s, a, p), b, p), c, p)
  {
    assert [a][1..] == [];
    var abc := [a, b, c];
    assert abc[1..] == [b, c] && abc[1..][1..] == [c] && abc[1..][1..][1..] == [];
    var s1 := Apply(s, a, p);
    var s2 := Apply(s1, b, p);
    assert Run(s, abc, p) == Run(s1, abc[1..], p);
    assert Run(s1, abc[1..], p) == Run(s2, abc[1..][1..], p);
    assert Run(s2, abc[1..][1..], p) == Run(Apply(s2, c, p), [], p);
  }

  /** Exact pin levels: forward HLHL, backward LHLH, left LHHL, right HLLH. */
  lemma PinPatterns(s: DriveState, p: Profile)
    ensures var r := Apply(s, Forward, p);
      (r.in1, r.in2, r.in3, r.in4) == (High, Low, High, Low)
    ensures var r := Apply(s, Backward, p);
      (r.in1, r.in2, r.in3, r.in4) == (Low, High, Low, High)
    ensures var r := Apply(s, TurnLeft, p);
      (r.in1, r.in2, r.in3, r.in4) == (Low, High, High, Low)
    ensures var r := Apply(s, TurnRight, p);
      (r.in1, r.in2, r.in3, r.in4) == (High, Low, Low, High)
  {
  }

  function Invert(l: Level): Level {
    if l == High then Low else High
  }

  /** moveBackward inverts every direction pin of moveForward, same duties. */
  lemma BackwardInvertsForward(s: DriveState, t: DriveState, p: Profile)
    ensures var f, b := Apply(s, Forward, p), Apply(t, Backward, p);
      b.in1 == Invert(f.in1) && b.in2 == Invert(f.in2) &&
      b.in3 == Invert(f.in3) && b.in4 == Invert(f.in4) &&
      b.leftDuty == f.leftDuty && b.rightDuty == f.rightDuty
  {
  }

  /** Reading a bridge back gives the direction it was set for. */
  lemma BridgeRoundTrip(dir: Direction)
    ensures BridgeDirection(BridgeInputs(dir).0, BridgeInputs(dir).1) == Some(dir)
  {
  }

  /**
   * After a move each wheel turns in the direction of the table: opposite
   * directions for a turn, matching ones for forward and backward.
   */
  lemma MoveDirections(s: DriveState, op: Intent, p: Profile)
    requires op != Stop
    ensures LeftDirection(Apply(s, op, p)) == Some(Directions(op).0)
    ensures RightDirection(Apply(s, op, p)) == Some(Directions(op).1)
    ensures IsTurn(op) <==> LeftDirection(Apply(s, op, p)) != RightDirection(Apply(s, op, p))
  {
  }

  /** Every motor function keeps both bridges free of a both-HIGH pair. */
  lemma ApplyKeepsSafe(s: DriveState, op: Intent, p: Profile)
    requires Safe(s) && p.Valid()
    ensures Safe(Apply(s, op, p))
  {
  }

  /** Any sequence of motor functions keeps the outputs safe. */
  lemma {:induction false} RunKeepsSafe(s: DriveState, ops: seq<Intent>, p: Profile)
    requires Safe(s) && p.Valid()
    ensures Safe(Run(s, ops, p))
    decreases |ops|
  {
    if ops != [] {
      ApplyKeepsSafe(s, ops[0], p);
      RunKeepsSafe(Apply(s, ops[0], p), ops[1..], p);
    }
  }

  /** Running one more motor function applies it to the state reached so far. */
  lemma {:induction false} RunSnoc(s: DriveState, ops: seq<Intent>, op: Intent, p: Profile)
    ensures Run(s, ops + [op], p) == Apply(Run(s, ops, p), op, p)
    decreases |ops|
  {
    if ops == [] {
      assert ops + [op] == [op];
    } else {
      assert (ops + [op])[1..] == ops[1..] + [op];
      RunSnoc(Apply(s, ops[0], p), ops[1..], op, p);
    }
  }

  /**
   * Only the most recent command matters once it is a move: the outputs
   * after a run ending in a move do not depend on the run's start or prefix.
   */
  lemma LastMoveWins(s: DriveState, t: DriveState, ops: seq<Intent>, op: Intent, p: Profile)
    requires op != Stop
    ensures Run(s, ops + [op], p) == Apply(t, op, p)
  {
    RunSnoc(s, ops, op, p);
  }

  /** Issuing any motor function twice leaves the outputs of issuing it once. */
  lemma ApplyIdempotent(s: DriveState, op: Intent, p: Profile)
    ensures Apply(Apply(s, op, p), op, p) == Apply(s, op, p)
  {
  }

  /** With the single motorSpeed every move drives both wheels at 255. */
  lemma FullSpeedEqualDuties(s: DriveState, op: Intent)
    requires op != Stop
    ensures Apply(s, op, FullSpeedProfile).leftDuty == Apply(s, op, FullSpeedProfile).rightDuty == 255
  {
  }

  // The individual writes inside a motor function. Apply treats a motor
  // function as one update; the hardware sees its digitalWrite and ledcWrite
  // calls one at a time, and a bridge passes through every state in between.

  datatype Pin = In1 | In2 | In3 | In4

  datatype Channel = LeftChannel | RightChannel

  /** One digitalWrite to a direction pin or one ledcWrite to a PWM channel. */
  datatype Write = PinWrite(pin: Pin, level: Level) | DutyWrite(channel: Channel, duty: int)

  /** The outputs after one write. */
  function Put(s: DriveState, w: Write): DriveState {
    match w
    case PinWrite(In1, l) => s.(in1 := l)
    case PinWrite(In2, l) => s.(in2 := l)
    case PinWrite(In3, l) => s.(in3 := l)
    case PinWrite(In4, l) => s.(in4 := l)
    case DutyWrite(LeftChannel, d) => s.(leftDuty := d)
    case DutyWrite(RightChannel, d) => s.(rightDuty := d)
  }

  /** The outputs after a sequence of writes. */
  function Final(s: DriveState, ws: seq<Write>): DriveState
    decreases |ws|
  {
    if ws == [] then s else Final(Put(s, ws[0]), ws[1..])
  }

  /** No state passed through while the writes are made has a bridge with both inputs HIGH. */
  predicate WritesSafe(s: DriveState, ws: seq<Write>)
    decreases |ws|
  {
    ws == [] || (NoBothHigh(Put(s, ws[0])) && WritesSafe(Put(s, ws[0]), ws[1..]))
  }

  /** Writes made one batch after another pass through the states of each batch. */
  lemma {:induction false} WritesAppend(s: DriveState, a: seq<Write>, b: seq<Write>)
    ensures Final(s, a + b) == Final(Final(s, a), b)
    ensures WritesSafe(s, a + b) <==> WritesSafe(s, a) && WritesSafe(Final(s, a), b)
    decreases |a|
  {
    if a == [] {
      assert a + b == b;
    } else {
      assert (a + b)[0] == a[0] && (a + b)[1..] == a[1..] + b;
      WritesAppend(Put(s, a[0]), a[1..], b);
    }
  }

  /** Three writes pass through three states, in order. */
  lemma ThreeWrites(s: DriveState, w1: Write, w2: Write, w3: Write)
    ensures Final(s, [w1, w2, w3]) == Put(Put(Put(s, w1), w2), w3)
    ensures WritesSafe(s, [w1, w2, w3]) <==>
      NoBothHigh(Put(s, w1)) && NoBothHigh(Put(Put(s, w1), w2)) &&
      NoBothHigh(Put(Put(Put(s, w1), w2), w3))
  {
    var ws := [w1, w2, w3];
    assert ws[1..] == [w2, w3] && ws[1..][1..] == [w3] && ws[1..][1..][1..] == [];
    var s1 := Put(s, w1);
    var s2 := Put(s1, w2);
    assert Final(s, ws) == Final(s1, ws[1..]);
    assert Final(s1, ws[1..]) == Final(s2, ws[1..][1..]);
    assert Final(s2, ws[1..][1..]) == Final(Put(s2, w3), []);
    assert WritesSafe(s, ws) == (NoBothHigh(s1) && WritesSafe(s1, ws[1..]));
    assert WritesSafe(s1, ws[1..]) == (NoBothHigh(s2) && WritesSafe(s2, ws[1..][1..]));
    assert WritesSafe(s2, ws[1..][1..]) == (NoBothHigh(Put(s2, w3)) && WritesSafe(Put(s2, w3), []));
  }

  /** The two writes of stopMotors, left channel first. */
  const StopWrites: seq<Write> := [DutyWrite(LeftChannel, 0), DutyWrite(RightChannel, 0)]

  /** The calls for one wheel as the sketches make them: first input, second input, duty. */
  function WheelWrites(first: Pin, second: Pin, ch: Channel, dir: Direction, duty: int): seq<Write> {
    var (a, b) := BridgeInputs(dir);
    [PinWrite(first, a), PinWrite(second, b), DutyWrite(ch, duty)]
  }

  /** The calls a motor function makes, in the order the sketches make them. */
  function SourceWrites(op: Intent, p: Profile): seq<Write> {
    if op == Stop then StopWrites
    else
      WheelWrites(In1, In2, LeftChannel, Directions(op).0, p.leftSpeed)
        + WheelWrites(In3, In4, RightChannel, Directions(op).1, p.rightSpeed)
  }

  /** The calls for one wheel with the input going LOW written before the one going HIGH. */
  function LowFirstWheelWrites(first: Pin, second: Pin, ch: Channel, dir: Direction, duty: int): seq<Write> {
    var (a, b) := BridgeInputs(dir);
    if a == Low then [PinWrite(first, a), PinWrite(second, b), DutyWrite(ch, duty)]
    else [PinWrite(second, b), PinWrite(first, a), DutyWrite(ch, duty)]
  }

  /** A motor function whose every bridge drops one input before raising the other. */
  function LowFirstWrites(op: Intent, p: Profile): seq<Write> {
    if op == Stop then StopWrites
    else
      LowFirstWheelWrites(In1, In2, LeftChannel, Directions(op).0, p.leftSpeed)
        + LowFirstWheelWrites(In3, In4, RightChannel, Directions(op).1, p.rightSpeed)
  }

  /** stopMotors only writes duties, so no bridge changes on the way. */
  lemma StopWritesSafe(s: DriveState, p: Profile)
    requires NoBothHigh(s)
    ensures Final(s, StopWrites) == Apply(s, Stop, p)
    ensures WritesSafe(s, StopWrites)
  {
    var ws := StopWrites;
    assert ws[1..] == [DutyWrite(RightChannel, 0)] && ws[1..][1..] == [];
  }

  /**
   * The calls as written end in the outputs of Apply, but on the way a bridge
   * has both inputs HIGH exactly when its wheel is switched to Ahead while its
   * second input is still HIGH, that is when a wheel in reverse is driven
   * ahead. Driving a wheel into reverse writes IN1 (or IN3) LOW first and never
   * does this.
   */
  lemma SourceWritesBrake(s: DriveState, op: Intent, p: Profile)
    requires NoBothHigh(s)
    ensures Final(s, SourceWrites(op, p)) == Apply(s, op, p)
    ensures !WritesSafe(s, SourceWrites(op, p)) <==>
      op != Stop &&
      ((Directions(op).0 == Ahead && s.in2 == High) || (Directions(op).1 == Ahead && s.in4 == High))
  {
    if op == Stop {
      StopWritesSafe(s, p);
    } else {
      var (l, r) := Directions(op);
      var (a, b) := BridgeInputs(l);
      var (c, d) := BridgeInputs(r);
      var left := WheelWrites(In1, In2, LeftChannel, l, p.leftSpeed);
      var right := WheelWrites(In3, In4, RightChannel, r, p.rightSpeed);
      WritesAppend(s, left, right);
      ThreeWrites(s, PinWrite(In1, a), PinWrite(In2, b), DutyWrite(LeftChannel, p.leftSpeed));
      ThreeWrites(Final(s, left), PinWrite(In3, c), PinWrite(In4, d), DutyWrite(RightChannel, p.rightSpeed));
    }
  }

  /** Reversing the left wheel from backward to forward passes through a both-HIGH bridge. */
  lemma ForwardAfterBackwardBrakes(p: Profile)
    ensures !WritesSafe(Apply(PowerOn, Backward, p), SourceWrites(Forward, p))
  {
    SourceWritesBrake(Apply(PowerOn, Backward, p), Forward, p);
  }

  /** Writing the LOW input first reaches the same outputs without ever raising both inputs. */
  lemma LowFirstKeepsSafe(s: DriveState, op: Intent, p: Profile)
    requires NoBothHigh(s)
    ensures Final(s, LowFirstWrites(op, p)) == Apply(s, op, p)
    ensures WritesSafe(s, LowFirstWrites(op, p))
  {
    if op == Stop {
      StopWritesSafe(s, p);
    } else {
      var (l, r) := Directions(op);
      var (a, b) := BridgeInputs(l);
      var (c, d) := BridgeInputs(r);
      var left := LowFirstWheelWrites(In1, In2, LeftChannel, l, p.leftSpeed);
      var right := LowFirstWheelWrites(In3, In4, RightChannel, r, p.rightSpeed);
      WritesAppend(s, left, right);
      if a == Low {
        ThreeWrites(s, PinWrite(In1, a), PinWrite(In2, b), DutyWrite(LeftChannel, p.leftSpeed));
      } else {
        ThreeWrites(s, PinWrite(In2, b), PinWrite(In1, a), DutyWrite(LeftChannel, p.leftSpeed));
      }
      if c == Low {
        ThreeWrites(Final(s, left), PinWrite(In3, c), PinWrite(In4, d), DutyWrite(RightChannel, p.rightSpeed));
      } else {
        ThreeWrites(Final(s, left), PinWrite(In4, d), PinWrite(In3, c), DutyWrite(RightChannel, p.rightSpeed));
      }
    }
  }

  /**
   * The motor outputs of one sketch: the four direction pins and the two
   * PWM duties, overwritten in place by the five motor functions.
   */
  class MotorDriver {
    const profile: Profile
    var in1: Level
    var in2: Level
    var in3: Level
    var in4: Level
    var leftDuty: int
    var rightDuty: int
    /** The motor functions called so far, oldest first. */
    ghost var calls: seq<Intent>

    function State(): DriveState
      reads this
    {
      DriveState(in1, in2, in3, in4, leftDuty, rightDuty)
    }

    ghost predicate Valid()
      reads this
    {
      profile.Valid() && Safe(State()) && State() == Run(PowerOn, calls, profile)
    }

    /** The outputs after pinMode and ledcSetup. */
    constructor (profile: Profile)
      requires profile.Valid()
      ensures Valid() && this.profile == profile
      ensures State() == PowerOn && calls == []
    {
      this.profile := profile;
      in1, in2, in3, in4 := Low, Low, Low, Low;
      leftDuty, rightDuty := 0, 0;
      calls := [];
    }

    method MoveForward()
      requires Valid()
      modifies this
      ensures Valid()
      ensures State() == Apply(old(State()), Forward, profile)
      ensures calls == old(calls) + [Forward]
    {
      RunSnoc(PowerOn, calls, Forward, profile);
      calls := calls + [Forward];
      in1 := High;
      in2 := Low;
      leftDuty := profile.leftSpeed;
      in3 := High;
      in4 := Low;
      rightDuty := profile.rightSpeed;
    }

    method MoveBackward()
      requires Valid()
      modifies this
      ensures Valid()
      ensures State() == Apply(old(State()), Backward, profile)
      ensures calls == old(calls) + [Backward]
    {
      RunSnoc(PowerOn, calls, Backward, profile);
      calls := calls + [Backward];
      in1 := Low;
      in2 := High;
      leftDuty := profile.leftSpeed;
      in3 := Low;
      in4 := High;
      rightDuty := profile.rightSpeed;
    }

    /** Left wheel in reverse, right wheel ahead. */
    method TurnLeft()
      requires Valid()
      modifies this
      ensures Valid()
      ensures State() == Apply(old(State()), Intent.TurnLeft, profile)
      ensures calls == old(calls) + [Intent.TurnLeft]
    {
      RunSnoc(PowerOn, calls, Intent.TurnLeft, profile);
      calls := calls + [Intent.TurnLeft];
      in1 := Low;
      in2 := High;
      leftDuty := profile.leftSpeed;
      in3 := High;
      in4 := Low;
      rightDuty := profile.rightSpeed;
    }

    /** Left wheel ahead, right wheel in reverse. */
    method TurnRight()
      requires Valid()
      modifies this
      ensures Valid()
      ensures State() == Apply(old(State()), Intent.TurnRight, profile)
      ensures calls == old(calls) + [Intent.TurnRight]
    {
      RunSnoc(PowerOn, calls, Intent.TurnRight, profile);
      calls := calls + [Intent.TurnRight];
      in1 := High;
      in2 := Low;
      leftDuty := profile.leftSpeed;
      in3 := Low;
      in4 := High;
      rightDuty := profile.rightSpeed;
    }

    /** Writes 0 to both PWM channels; the direction pins keep their levels. */
    method StopMotors()
      requires Valid()
      modifies this
      ensures Valid()
      ensures State() == Apply(old(State()), Stop, profile)
      ensures calls == old(calls) + [Stop]
      ensures leftDuty == 0 && rightDuty == 0
      ensures in1 == old(in1) && in2 == old(in2) && in3 == old(in3) && in4 == old(in4)
    {
      RunSnoc(PowerOn, calls, Stop, profile);
      calls := calls + [Stop];
      leftDuty := 0;
      rightDuty := 0;
    }

    /** Calls the motor function an intent names. */
    method Perform(op: Intent)
      requires Valid()
      modifies this
      ensures Valid()
      ensures State() == Apply(old(State()), op, profile)
      ensures calls == old(calls) + [op]
    {
      match op
      case Forward => MoveForward();
      case Backward => MoveBackward();
      case TurnLeft => TurnLeft();
      case TurnRight => TurnRight();
      case Stop => StopMotors();
    }
  }
}
