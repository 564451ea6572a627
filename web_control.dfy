/**
 * The WiFi web-server node: GET / serves the control page and each action
 * route runs one motor function and acknowledges it with 200 "OK".
 */
module WebControl {
  import opened Drive

  /** What a registered route does. */
  datatype Handler = ServePage | RunMotor(op: Intent)

  /** The reply the server sends; the page's HTML is not modelled. */
  datatype Reply = Page | Acknowledge(text: string) | NotFound {
    function Status(): int {
      if NotFound? then 404 else 200
    }
  }

  /** The routes registered with server.on, by path. */
  const Routes: map<string, Handler> := map[
    "/" := ServePage,
    "/forward" := RunMotor(Forward),
    "/backward" := RunMotor(Backward),
    "/left" := RunMotor(Intent.TurnLeft),
    "/right" := RunMotor(Intent.TurnRight),
    "/stop" := RunMotor(Stop)
  ]

  /** The handler for a request path, if one is registered. */
  function Route(path: string): (h: Option<Handler>)
    ensures h.Some? <==> path in {"/", "/forward", "/backward", "/left", "/right", "/stop"}
    ensures h == Some(ServePage) <==> path == "/"
  {
    if path in Routes then Some(Routes[path]) else None
  }

  /**
   * Outputs after serving a request for path: the four moving routes drive
   * both wheels at the profile's duties, /stop zeroes the duties only, and
   * every other path leaves the outputs alone.
   */
  function AfterRequest(s: DriveState, path: string, p: Profile): (r: DriveState)
    ensures path in {"/forward", "/backward", "/left", "/right"} ==>
      r.in1 != r.in2 && r.in3 != r.in4 && r.leftDuty == p.leftSpeed && r.rightDuty == p.rightSpeed
    ensures path == "/stop" ==> r == s.(leftDuty := 0, rightDuty := 0)
    ensures path !in {"/forward", "/backward", "/left", "/right", "/stop"} ==> r == s
  {
    match Route(path)
    case Some(RunMotor(op)) => Apply(s, op, p)
    case _ => s
  }

  /** The motor function a request for path calls, if any. */
  function RouteCalls(path: string): (ops: seq<Intent>)
    ensures |ops| <= 1
    ensures ops == [] <==> path !in {"/forward", "/backward", "/left", "/right", "/stop"}
  {
    match Route(path)
    case Some(RunMotor(op)) => [op]
    case _ => []
  }

  /** The reply to a request for path. */
  function ReplyTo(path: string): (r: Reply)
    ensures r.Status() == 200 <==> Route(path).Some?
    ensures r == Page <==> path == "/"
    ensures r == Acknowledge("OK") <==> Route(path).Some? && Route(path).value.RunMotor?
  {
    match Route(path)
    case Some(ServePage) => Page
    case Some(RunMotor(_)) => Acknowledge("OK")
    case None => NotFound
  }

  /** Each action route runs exactly its own motor function. */
  lemma ActionRoutes(s: DriveState, p: Profile)
    ensures AfterRequest(s, "/forward", p) == Apply(s, Forward, p)
    ensures AfterRequest(s, "/backward", p) == Apply(s, Backward, p)
    ensures AfterRequest(s, "/left", p) == Apply(s, Intent.TurnLeft, p)
    ensures AfterRequest(s, "/right", p) == Apply(s, Intent.TurnRight, p)
    ensures AfterRequest(s, "/stop", p) == Apply(s, Stop, p)
  {
  }

  /** Serving the page, or a path with no route, leaves the motors alone. */
  lemma NonActionLeavesMotors(s: DriveState, path: string, p: Profile)
    requires Route(path).None? || path == "/"
    ensures AfterRequest(s, path, p) == s
  {
  }

  /** Requesting the same path twice leaves the outputs of requesting it once. */
  lemma RepeatedRequest(s: DriveState, path: string, p: Profile)
    ensures AfterRequest(AfterRequest(s, path, p), path, p) == AfterRequest(s, path, p)
  {
  }

  /** The node's request handling: look the path up and run its handler. */
  method HandleRequest(m: MotorDriver, path: string) returns (r: Reply)
    requires m.Valid()
    modifies m
    ensures m.Valid()
    ensures r == ReplyTo(path)
    ensures m.State() == AfterRequest(old(m.State()), path, m.profile)
    ensures m.calls == old(m.calls) + RouteCalls(path)
  {
    match Route(path)
    case Some(ServePage) =>
      r := Page;
    case Some(RunMotor(op)) =>
      m.Perform(op);
      r := Acknowledge("OK");
    case None =>
      r := NotFound;
  }

  /**
   * The motor part of setup(): the outputs are configured but, unlike the
   * other two sketches, stopMotors is not called.
   */
  method Setup() returns (m: MotorDriver)
    ensures fresh(m) && m.Valid() && m.profile == FullSpeedProfile
    ensures m.State() == PowerOn && m.calls == []
  {
    m := new MotorDriver(FullSpeedProfile);
  }
}
