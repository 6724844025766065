/**
 * The turtle's pose state machine (src/generate.rs). A `CurrentTurtleState`
 * keeps a 2x3 affine transform and an unbounded heading in degrees; `apply`
 * maps each draw request to at most one draw command, moving or turning the
 * transform in place as it goes.
 *
 * `Step` is `apply` on values; the class's `Apply` is the in-place method,
 * proved to behave as `Step` says, and the lemmas state what `Step` promises.
 */
module Generate {
  import opened Wrappers
  import opened Affine
  import opened Colors

  datatype MotionCmd = Forward(dist: real) | Teleport(x: real, y: real) | GoTo(x: real, y: real) | SetX(x: real) | SetY(y: real)

  datatype RotateCmd = Right(deg: real) | Left(deg: real) | SetHeading(heading: real)

  datatype TimedDrawCmd = Motion(motion: MotionCmd) | Rotate(rotation: RotateCmd)

  /**
   * The requests that take no time. `apply` ignores what `Dot`, `Stamp` and
   * `Fill` carry, so their payloads are only placeholders here.
   */
  datatype InstantaneousDrawCmd =
    | Undo
    | BackfillPolygon
    | PenDown
    | PenUp
    | PenColor(pen: TurtleColor)
    | FillColor(fill: TurtleColor)
    | PenWidth(width: real)
    | Dot(size: Option<real>, color: TurtleColor)
    | Stamp(stamp: bool)
    | Fill(polygon: seq<Vec2>)

  datatype DrawRequest = TimedDraw(timed: TimedDrawCmd) | InstantaneousDraw(instant: InstantaneousDrawCmd)

  /** A point in whole canvas coordinates (`Vec2d<isize>`). */
  datatype Point = Point(x: int, y: int)

  datatype LineInfo = LineInfo(begin: Point, end: Point)

  datatype DrawCommand =
    | DrawLine(line: LineInfo)
    | SetPenColor(penColor: TurtleColor)
    | SetPenWidth(penWidth: real)
    | SetFillColor(fillColor: TurtleColor)

  /** The value of a `CurrentTurtleState`: its transform and its heading. */
  datatype Pose = Pose(transform: Matrix2d, angle: real)

  /** What one `apply` leaves behind: the new pose and the command it returned. */
  datatype Applied = Applied(pose: Pose, out: Option<DrawCommand>)

  /** The pose a fresh state starts in: the identity map and heading 0. */
  function DefaultPose(): (p: Pose)
    ensures forall x: real, y: real :: ApplyTo(p.transform, x, y) == Vec2(x, y)
    ensures p.angle == 0.0
  {
    Pose(Identity(), 0.0)
  }

  /** Where a transform puts the turtle, rounded to whole coordinates. */
  function RoundedPoint(m: Matrix2d): (p: Point)
    ensures m.c - 0.5 <= p.x as real <= m.c + 0.5
    ensures m.f - 0.5 <= p.y as real <= m.f + 0.5
  {
    Point(Round(m.c), Round(m.f))
  }

  /** A transform built afresh: the origin at (x, y), turned by `angle` degrees. */
  function Placed(trig: Trig, x: real, y: real, angle: real): (m: Matrix2d)
    ensures Origin(m) == Vec2(x, y)
    ensures Linear(m) == Rotation(trig, angle)
  {
    var t := Trans(Identity(), x, y);
    assert Linear(t) == Identity();
    RotDeg(trig, t, angle)
  }

  /** The transform after a motion command. */
  function Move(trig: Trig, p: Pose, motion: MotionCmd): Matrix2d
  {
    match motion
    case Forward(dist) => Trans(p.transform, dist, 0.0)
    case Teleport(x, y) => Placed(trig, x, y, p.angle)
    case GoTo(x, y) => Placed(trig, x, y, p.angle)
    case SetX(x) => Placed(trig, x, p.transform.f, p.angle)
    case SetY(y) => Placed(trig, p.transform.c, y, p.angle)
  }

  /** The pose after a rotation command. */
  function Turn(trig: Trig, p: Pose, rotation: RotateCmd): Pose
  {
    match rotation
    case Right(deg) => Pose(RotDeg(trig, p.transform, deg), p.angle + deg)
    case Left(deg) => Pose(RotDeg(trig, p.transform, -deg), p.angle - deg)
    case SetHeading(h) => Pose(RotDeg(trig, p.transform, h - p.angle), h)
  }

  /** The command an instantaneous request is forwarded as, if any. */
  function Forwarded(cmd: InstantaneousDrawCmd): Option<DrawCommand>
  {
    match cmd
    case PenColor(c) => Some(SetPenColor(c))
    case FillColor(c) => Some(SetFillColor(c))
    case PenWidth(w) => Some(SetPenWidth(w))
    case _ => None
  }

  /**
   * `apply` on values. A motion draws a line from the rounded position before
   * it to the rounded position after it and keeps the heading; a rotation
   * keeps the position and draws nothing; an instantaneous request leaves the
   * pose alone.
   */
  function Step(trig: Trig, p: Pose, req: DrawRequest): (r: Applied)
    ensures req.InstantaneousDraw? ==> r.pose == p
    ensures req.TimedDraw? && req.timed.Motion? ==>
              && r.pose.angle == p.angle
              && r.out == Some(DrawLine(LineInfo(RoundedPoint(p.transform), RoundedPoint(r.pose.transform))))
    ensures req.TimedDraw? && req.timed.Rotate? ==>
              r.out == None && Origin(r.pose.transform) == Origin(p.transform)
  {
    match req
    case TimedDraw(Motion(motion)) =>
      var q := Pose(Move(trig, p, motion), p.angle);
      Applied(q, Some(DrawLine(LineInfo(RoundedPoint(p.transform), RoundedPoint(q.transform)))))
    case TimedDraw(Rotate(rotation)) => Applied(Turn(trig, p, rotation), None)
    case InstantaneousDraw(cmd) => Applied(p, Forwarded(cmd))
  }

  /** `Teleport(x, y)` and `GoTo(x, y)` put the turtle exactly at (x, y), turned by the stored heading. */
  lemma TeleportPlacesAt(trig: Trig, p: Pose, x: real, y: real)
    ensures var q := Step(trig, p, TimedDraw(Motion(Teleport(x, y)))).pose;
      Origin(q.transform) == Vec2(x, y) && Linear(q.transform) == Rotation(trig, p.angle) && q.angle == p.angle
    ensures Step(trig, p, TimedDraw(Motion(GoTo(x, y)))) == Step(trig, p, TimedDraw(Motion(Teleport(x, y))))
  {
  }

  /** `SetX` keeps the y coordinate and `SetY` keeps the x coordinate. */
  lemma SetCoordinateKeepsOther(trig: Trig, p: Pose, v: real)
    ensures Origin(Step(trig, p, TimedDraw(Motion(SetX(v)))).pose.transform) == Vec2(v, p.transform.f)
    ensures Origin(Step(trig, p, TimedDraw(Motion(SetY(v)))).pose.transform) == Vec2(p.transform.c, v)
  {
  }

  /**
   * `Forward(d)` keeps the rotation part and moves the origin by d times the
   * transform's first column, the turtle's own x-axis.
   */
  lemma ForwardAdvances(trig: Trig, p: Pose, d: real)
    ensures var q := Step(trig, p, TimedDraw(Motion(Forward(d)))).pose;
      Linear(q.transform) == Linear(p.transform)
      && Origin(q.transform) == Vec2(p.transform.c + d * p.transform.a, p.transform.f + d * p.transform.d)
  {
  }

  /**
   * `Right(a)` turns the heading by +a and `Left(a)` by -a, and neither moves
   * the turtle; one after the other they restore the heading, and the whole
   * transform too where cosine and sine obey the usual identities at a.
   */
  lemma RightThenLeft(trig: Trig, p: Pose, a: real)
    ensures Step(trig, p, TimedDraw(Rotate(Right(a)))).pose.angle == p.angle + a
    ensures Step(trig, p, TimedDraw(Rotate(Left(a)))).pose.angle == p.angle - a
    ensures var q := Step(trig, p, TimedDraw(Rotate(Right(a)))).pose;
      var back := Step(trig, q, TimedDraw(Rotate(Left(a)))).pose;
      back.angle == p.angle && (Reversible(trig, a) ==> back == p)
  {
    var q := Step(trig, p, TimedDraw(Rotate(Right(a)))).pose;
    if Reversible(trig, a) {
      RotateThenReverse(trig, p.transform, a);
    }
  }

  /**
   * `SetHeading(h)` stores h as the heading; a second `SetHeading(h)` turns by
   * 0 degrees, so it changes nothing where a zero turn is the identity.
   */
  lemma SetHeadingTwice(trig: Trig, p: Pose, h: real)
    ensures var q := Step(trig, p, TimedDraw(Rotate(SetHeading(h)))).pose;
      q.angle == h
      && Step(trig, q, TimedDraw(Rotate(SetHeading(h)))).pose == Pose(RotDeg(trig, q.transform, 0.0), h)
    ensures var q := Step(trig, p, TimedDraw(Rotate(SetHeading(h)))).pose;
      trig.cos(0.0) == 1.0 && trig.sin(0.0) == 0.0 ==> Step(trig, q, TimedDraw(Rotate(SetHeading(h)))).pose == q
  {
    var q := Step(trig, p, TimedDraw(Rotate(SetHeading(h)))).pose;
    if trig.cos(0.0) == 1.0 && trig.sin(0.0) == 0.0 {
      RotateByZero(trig, q.transform);
    }
  }

  /**
   * Pen colour, fill colour and pen width are forwarded unchanged (the width
   * is not scaled); every other instantaneous request returns nothing.
   */
  lemma InstantaneousForwarding(trig: Trig, p: Pose, cmd: InstantaneousDrawCmd)
    ensures var r := Step(trig, p, InstantaneousDraw(cmd));
      && r.pose == p
      && (r.out.Some? <==> cmd.PenColor? || cmd.FillColor? || cmd.PenWidth?)
      && (cmd.PenColor? ==> r.out == Some(SetPenColor(cmd.pen)))
      && (cmd.FillColor? ==> r.out == Some(SetFillColor(cmd.fill)))
      && (cmd.PenWidth? ==> r.out == Some(SetPenWidth(cmd.width)))
  {
  }

  /** The pose and the emitted commands after a sequence of requests, applied first to last. */
  datatype Trace = Trace(pose: Pose, out: seq<DrawCommand>)

  function Run(trig: Trig, p: Pose, reqs: seq<DrawRequest>): Trace
  {
    if |reqs| == 0 then Trace(p, [])
    else
      var t := Run(trig, p, reqs[..|reqs| - 1]);
      var r := Step(trig, t.pose, reqs[|reqs| - 1]);
      Trace(r.pose, t.out + if r.out.Some? then [r.out.value] else [])
  }

  /** The lines among the commands, in order. */
  function Lines(cmds: seq<DrawCommand>): seq<LineInfo>
  {
    if |cmds| == 0 then []
    else Lines(cmds[..|cmds| - 1]) + if cmds[|cmds| - 1].DrawLine? then [cmds[|cmds| - 1].line] else []
  }

  /** Lines chained end to begin, from `from` to `to`; no lines means no movement. */
  ghost predicate Chained(ls: seq<LineInfo>, from: Point, to: Point)
  {
    && (forall k :: 0 <= k < |ls| - 1 ==> ls[k].end == ls[k + 1].begin)
    && (|ls| == 0 ==> from == to)
    && (|ls| > 0 ==> ls[0].begin == from && ls[|ls| - 1].end == to)
  }

  /** The lines of a run form one connected path, from the starting position to the final one. */
  ghost predicate Connected(p: Pose, t: Trace)
  {
    Chained(Lines(t.out), RoundedPoint(p.transform), RoundedPoint(t.pose.transform))
  }

  /** A line that begins where a chain ends extends it. */
  lemma ChainExtends(ls: seq<LineInfo>, from: Point, to: Point, l: LineInfo)
    requires Chained(ls, from, to) && l.begin == to
    ensures Chained(ls + [l], from, l.end)
  {
    var ext := ls + [l];
    forall k | 0 <= k < |ext| - 1
      ensures ext[k].end == ext[k + 1].begin
    {
      if k < |ls| - 1 {
        assert ext[k] == ls[k] && ext[k + 1] == ls[k + 1];
      }
    }
  }

  /**
   * What a step adds to the path: a line from the old position to the new
   * one, or no line and no change of the rounded position.
   */
  lemma StepLinks(trig: Trig, p: Pose, req: DrawRequest)
    ensures var r := Step(trig, p, req);
            if r.out.Some? && r.out.value.DrawLine?
            then r.out.value.line == LineInfo(RoundedPoint(p.transform), RoundedPoint(r.pose.transform))
            else RoundedPoint(r.pose.transform) == RoundedPoint(p.transform)
  {
    if req.TimedDraw? && req.timed.Rotate? {
      var q := Step(trig, p, req).pose;
      assert q.transform.c == p.transform.c && q.transform.f == p.transform.f;
    }
  }

  /**
   * Whatever the requests, each line begins where the previous one ended: the
   * first at the starting position, the last at the final position.
   */
  lemma {:induction false} PathIsConnected(trig: Trig, p: Pose, reqs: seq<DrawRequest>)
    ensures Connected(p, Run(trig, p, reqs))
  {
    if |reqs| > 0 {
      var init := reqs[..|reqs| - 1];
      PathIsConnected(trig, p, init);
      var t := Run(trig, p, init);
      var r := Step(trig, t.pose, reqs[|reqs| - 1]);
      StepLinks(trig, t.pose, reqs[|reqs| - 1]);
      var extra := if r.out.Some? then [r.out.value] else [];
      var out := t.out + extra;
      assert Run(trig, p, reqs) == Trace(r.pose, out);
      if extra == [] {
        assert out == t.out;
      } else {
        assert out[..|out| - 1] == t.out;
        if r.out.value.DrawLine? {
          assert Lines(out) == Lines(t.out) + [r.out.value.line];
          ChainExtends(Lines(t.out), RoundedPoint(p.transform), RoundedPoint(t.pose.transform), r.out.value.line);
        } else {
          assert Lines(out) == Lines(t.out);
        }
      }
    }
  }

  class CurrentTurtleState {
    var transform: Matrix2d
    var angle: real

    /** The abstract value of the state. */
    function Current(): Pose
      reads this
    {
      Pose(transform, angle)
    }

    /** `default`: the identity transform and heading 0. */
    constructor ()
      ensures Current() == DefaultPose()
    {
      transform := Identity();
      angle := 0.0;
    }

    /** The heading in degrees, never wrapped. */
    function Angle(): real
      reads this
    {
      angle
    }

    /** The `f64` position: where the transform sends the origin. */
    function PosF(): (p: Vec2)
      reads this
      ensures p == ApplyTo(transform, 0.0, 0.0)
    {
      Vec2(transform.c, transform.f)
    }

    /** The `isize` position: each coordinate truncated toward zero, not rounded. */
    function PosI(): (p: Point)
      reads this
      ensures -1 <= p.x - GetPoint().x <= 1 && -1 <= p.y - GetPoint().y <= 1
      ensures Abs(p.x) <= Abs(GetPoint().x) && Abs(p.y) <= Abs(GetPoint().y)
    {
      TruncateNearRound(transform.c);
      TruncateNearRound(transform.f);
      Point(Truncate(transform.c), Truncate(transform.f))
    }

    /** `get_point`: the position rounded to the nearest whole coordinates. */
    function GetPoint(): (p: Point)
      reads this
      ensures PosF().x - 0.5 <= p.x as real <= PosF().x + 0.5
      ensures PosF().y - 0.5 <= p.y as real <= PosF().y + 0.5
    {
      RoundedPoint(transform)
    }

    /** `apply`: update the transform and heading in place and return the command to draw. */
    method Apply(trig: Trig, cmd: DrawRequest) returns (r: Option<DrawCommand>)
      modifies this
      ensures Step(trig, old(Current()), cmd) == Applied(Current(), r)
    {
      match cmd {
        case TimedDraw(td) =>
          match td {
            case Motion(motion) =>
              var begin := GetPoint();
              match motion {
                case Forward(dist) =>
                  transform := Trans(transform, dist, 0.0);
                case Teleport(x, y) =>
                  transform := RotDeg(trig, Trans(Identity(), x, y), angle);
                case GoTo(x, y) =>
                  transform := RotDeg(trig, Trans(Identity(), x, y), angle);
                case SetX(x) =>
                  var curY := transform.f;
                  transform := RotDeg(trig, Trans(Identity(), x, curY), angle);
                case SetY(y) =>
                  var curX := transform.c;
                  transform := RotDeg(trig, Trans(Identity(), curX, y), angle);
              }
              var end := GetPoint();
              return Some(DrawLine(LineInfo(begin, end)));
            case Rotate(rotation) =>
              match rotation {
                case Right(deg) =>
                  transform := RotDeg(trig, transform, deg);
                  angle := angle + deg;
                case Left(deg) =>
                  transform := RotDeg(trig, transform, -deg);
                  angle := angle - deg;
                case SetHeading(h) =>
                  transform := RotDeg(trig, transform, h - angle);
                  angle := h;
              }
          }
        case InstantaneousDraw(id) =>
          match id {
            case PenColor(pc) => return Some(SetPenColor(pc));
            case FillColor(fc) => return Some(SetFillColor(fc));
            case PenWidth(pw) => return Some(SetPenWidth(pw));
            case Undo =>
            case BackfillPolygon =>
            case PenDown =>
            case PenUp =>
            case Dot(_, _) =>
            case Stamp(_) =>
            case Fill(_) =>
          }
      }
      r := None;
    }
  }
}
