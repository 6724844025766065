/**
 * The animation bookkeeping of the older crate root (src/lib.rs). A
 * `TurtleTask` keeps the committed command history, at most one command in
 * flight with its progress, and the pen flag. The event loop installs
 * received commands, each frame's `update` advances the progress, and each
 * `render` replays the history, drawing the command in flight partially and
 * committing it once its progress reaches 1. The OpenGL drawing is left out:
 * a replay reports the strokes it would draw instead.
 */
module Animation {
  import opened Wrappers
  import opened Affine

  datatype Command = Forward(dist: real) | Right(deg: real) | Left(deg: real) | PenDown | PenUp | GoTo(x: real, y: real) | ClearScreen

  /** `get_rotation`: the signed turn of a command in degrees. */
  function GetRotation(cmd: Command): (r: real)
    ensures cmd.Right? ==> r == cmd.deg
    ensures cmd.Left? ==> r == -cmd.deg
    ensures !cmd.Right? && !cmd.Left? ==> r == 0.0
  {
    match cmd
    case Right(deg) => deg
    case Left(deg) => -deg
    case _ => 0.0
  }

  /** The signed turn of a run of commands. */
  function TotalRotation(cmds: seq<Command>): real
  {
    if |cmds| == 0 then 0.0 else GetRotation(cmds[0]) + TotalRotation(cmds[1..])
  }

  /** The pen state after one command: `PenDown` and `PenUp` set it, the rest keep it. */
  function PenAfterOne(pen: bool, cmd: Command): bool
  {
    if cmd.PenDown? then true else if cmd.PenUp? then false else pen
  }

  /** The pen state after a run of commands, starting from `pen`. */
  function PenAfter(pen: bool, cmds: seq<Command>): bool
    decreases |cmds|
  {
    if |cmds| == 0 then pen else PenAfter(PenAfterOne(pen, cmds[0]), cmds[1..])
  }

  /** The lengths drawn by a run of commands at full progress, starting from `pen`. */
  function DrawnLengths(pen: bool, cmds: seq<Command>): seq<real>
    decreases |cmds|
  {
    if |cmds| == 0 then []
    else (if cmds[0].Forward? && pen then [cmds[0].dist] else []) + DrawnLengths(PenAfterOne(pen, cmds[0]), cmds[1..])
  }

  /** The commands a replay draws: `ClearScreen` is handled on receipt and never stored. */
  type DrawingCommand = c: Command | c != ClearScreen witness PenDown

  /** The part of a move or turn of size x drawn at progress pct. */
  function Portion(x: real, pct: real): real
  {
    x * pct
  }

  /** The window's own transform (`c.transform`) and the centre of the window. */
  datatype Viewport = Viewport(view: Matrix2d, cx: real, cy: real)

  /** A line from the origin to (length, 0), drawn under the transform `at`. */
  datatype Stroke = Stroke(at: Matrix2d, length: real)

  /** The variables of one replay: transform, heading, pen and what was drawn. */
  datatype Replay = Replay(transform: Matrix2d, deg: real, penDown: bool, strokes: seq<Stroke>)

  /** A replay starts at the window centre, heading -90 degrees, with the `TurtleTask` pen. */
  function StartReplay(trig: Trig, vp: Viewport, pen: bool): Replay
  {
    Replay(RotDeg(trig, Trans(vp.view, vp.cx, vp.cy), -90.0), -90.0, pen, [])
  }

  /**
   * One command replayed at progress `pct`: a forward move draws a stroke of
   * `dist * pct` only while the pen is down; turns are scaled by `pct`; pen
   * commands set the pen; `GoTo` rebuilds the transform from the window's,
   * turned by the heading accumulated so far.
   */
  function Draw(trig: Trig, vp: Viewport, st: Replay, cmd: DrawingCommand, pct: real): Replay
  {
    match cmd
    case Forward(dist) =>
      var drawn := if st.penDown then [Stroke(st.transform, Portion(dist, pct))] else [];
      st.(transform := Trans(st.transform, Portion(dist, pct), 0.0), strokes := st.strokes + drawn)
    case Right(deg) => st.(transform := RotDeg(trig, st.transform, Portion(deg, pct)))
    case Left(deg) => st.(transform := RotDeg(trig, st.transform, Portion(-deg, pct)))
    case PenDown => st.(penDown := true)
    case PenUp => st.(penDown := false)
    case GoTo(x, y) => st.(transform := RotDeg(trig, Trans(vp.view, x + vp.cx, y + vp.cy), st.deg))
  }

  /**
   * What one replayed command does to the heading, the pen and the strokes:
   * the heading is kept, the pen follows the pen commands, and a stroke of
   * `dist * pct` from the current transform is appended exactly when a
   * forward move is replayed with the pen down.
   */
  lemma DrawEffect(trig: Trig, vp: Viewport, st: Replay, cmd: DrawingCommand, pct: real)
    ensures var r := Draw(trig, vp, st, cmd, pct);
            && r.deg == st.deg
            && r.penDown == PenAfterOne(st.penDown, cmd)
            && r.strokes == st.strokes + if cmd.Forward? && st.penDown then [Stroke(st.transform, Portion(cmd.dist, pct))] else []
  {
  }

  /** The committed history replayed in order, each command's turn added to the heading first. */
  function ReplayAll(trig: Trig, vp: Viewport, start: Replay, cmds: seq<DrawingCommand>): Replay
  {
    if |cmds| == 0 then start
    else
      var st := ReplayAll(trig, vp, start, cmds[..|cmds| - 1]);
      var c := cmds[|cmds| - 1];
      Draw(trig, vp, st.(deg := st.deg + GetRotation(c)), c, 1.0)
  }

  function Min(x: real, y: real): real
  {
    if x <= y then x else y
  }

  /** A whole render pass: the history, then the command in flight at progress min(percent, 1). */
  function RenderPass(trig: Trig, vp: Viewport, cmds: seq<DrawingCommand>, current: Option<DrawingCommand>, percent: real, pen: bool): Replay
  {
    var st := ReplayAll(trig, vp, StartReplay(trig, vp, pen), cmds);
    if current.Some? then Draw(trig, vp, st, current.value, Min(percent, 1.0)) else st
  }

  /** `update` on the progress: it grows by dt * 30 while below 1 and then stays put. */
  function Advance(percent: real, dt: real): real
  {
    if percent < 1.0 then percent + dt * 30.0 else percent
  }

  /** The turn of a run grows by each appended command's turn. */
  lemma {:induction false} TotalRotationSnoc(cmds: seq<Command>, c: Command)
    ensures TotalRotation(cmds + [c]) == TotalRotation(cmds) + GetRotation(c)
  {
    if |cmds| > 0 {
      assert (cmds + [c])[1..] == cmds[1..] + [c];
      TotalRotationSnoc(cmds[1..], c);
    }
  }

  /** The pen after an appended command is that command's effect on the pen before it. */
  lemma {:induction false} PenAfterSnoc(pen: bool, cmds: seq<Command>, c: Command)
    ensures PenAfter(pen, cmds + [c]) == PenAfterOne(PenAfter(pen, cmds), c)
    decreases |cmds|
  {
    if |cmds| > 0 {
      assert (cmds + [c])[1..] == cmds[1..] + [c];
      PenAfterSnoc(PenAfterOne(pen, cmds[0]), cmds[1..], c);
    }
  }

  /** An appended command adds its own drawn length, decided by the pen before it. */
  lemma {:induction false} DrawnLengthsSnoc(pen: bool, cmds: seq<Command>, c: Command)
    ensures DrawnLengths(pen, cmds + [c])
         == DrawnLengths(pen, cmds) + if c.Forward? && PenAfter(pen, cmds) then [c.dist] else []
    decreases |cmds|
  {
    if |cmds| > 0 {
      assert (cmds + [c])[1..] == cmds[1..] + [c];
      DrawnLengthsSnoc(PenAfterOne(pen, cmds[0]), cmds[1..], c);
    }
  }

  /** The lengths of a run of strokes. */
  function Lengths(strokes: seq<Stroke>): seq<real>
  {
    if |strokes| == 0 then [] else Lengths(strokes[..|strokes| - 1]) + [strokes[|strokes| - 1].length]
  }

  /** Replaying the history: the heading is the starting heading plus the turns of all committed commands. */
  lemma {:induction false} ReplayHeading(trig: Trig, vp: Viewport, start: Replay, cmds: seq<DrawingCommand>)
    ensures ReplayAll(trig, vp, start, cmds).deg == start.deg + TotalRotation(cmds)
  {
    if |cmds| > 0 {
      var init, c := cmds[..|cmds| - 1], cmds[|cmds| - 1];
      assert init + [c] == cmds;
      ReplayHeading(trig, vp, start, init);
      TotalRotationSnoc(init, c);
    }
  }

  /** Replaying the history: the pen is where the last pen command left it. */
  lemma {:induction false} ReplayPen(trig: Trig, vp: Viewport, start: Replay, cmds: seq<DrawingCommand>)
    ensures ReplayAll(trig, vp, start, cmds).penDown == PenAfter(start.penDown, cmds)
  {
    if |cmds| > 0 {
      var init, c := cmds[..|cmds| - 1], cmds[|cmds| - 1];
      assert init + [c] == cmds;
      ReplayPen(trig, vp, start, init);
      PenAfterSnoc(start.penDown, init, c);
    }
  }

  lemma ConcatAssociates(a: seq<real>, b: seq<real>, c: seq<real>)
    ensures (a + b) + c == a + (b + c)
  {
  }

  lemma {:induction false} LengthsSnoc(strokes: seq<Stroke>, more: seq<Stroke>)
    requires |more| <= 1
    ensures Lengths(strokes + more) == Lengths(strokes) + if |more| == 1 then [more[0].length] else []
  {
    if |more| == 0 {
      assert strokes + more == strokes;
    } else {
      assert (strokes + more)[..|strokes|] == strokes;
    }
  }

  /**
   * Replaying the history: the strokes are exactly the forward moves made
   * while the pen was down, at their full length.
   */
  lemma {:induction false} ReplayLengths(trig: Trig, vp: Viewport, start: Replay, cmds: seq<DrawingCommand>)
    ensures Lengths(ReplayAll(trig, vp, start, cmds).strokes) == Lengths(start.strokes) + DrawnLengths(start.penDown, cmds)
  {
    if |cmds| > 0 {
      var init, c := cmds[..|cmds| - 1], cmds[|cmds| - 1];
      assert init + [c] == cmds;
      ReplayLengths(trig, vp, start, init);
      ReplayPen(trig, vp, start, init);
      DrawnLengthsSnoc(start.penDown, init, c);
      var st := ReplayAll(trig, vp, start, init);
      DrawEffect(trig, vp, st.(deg := st.deg + GetRotation(c)), c, 1.0);
      LengthsSnoc(st.strokes, if c.Forward? && st.penDown then [Stroke(st.transform, Portion(c.dist, 1.0))] else []);
      var drawn := if c.Forward? && st.penDown then [c.dist] else [];
      assert Lengths(ReplayAll(trig, vp, start, cmds).strokes) == Lengths(st.strokes) + drawn;
      assert DrawnLengths(start.penDown, cmds) == DrawnLengths(start.penDown, init) + drawn;
      ConcatAssociates(Lengths(start.strokes), DrawnLengths(start.penDown, init), drawn);
    }
  }

  /** One more command of the history replayed. */
  lemma ReplayAllStep(trig: Trig, vp: Viewport, start: Replay, history: seq<DrawingCommand>, index: nat)
    requires 0 < index <= |history|
    ensures var st := ReplayAll(trig, vp, start, history[..index - 1]);
            var c := history[index - 1];
            ReplayAll(trig, vp, start, history[..index]) == Draw(trig, vp, st.(deg := st.deg + GetRotation(c)), c, 1.0)
  {
    assert history[..index][..index - 1] == history[..index - 1];
  }

  /** `update` applied n times with the same elapsed time. */
  function AdvanceTimes(percent: real, dt: real, n: nat): real
    decreases n
  {
    if n == 0 then percent else AdvanceTimes(Advance(percent, dt), dt, n - 1)
  }

  /**
   * With a positive frame time, a command in flight reaches progress 1 once
   * n frames cover the remaining progress, and stays where it is from then on.
   */
  lemma {:induction false} UpdatesComplete(percent: real, dt: real, n: nat)
    requires dt > 0.0 && n as real * (dt * 30.0) >= 1.0 - percent
    ensures AdvanceTimes(percent, dt, n) >= 1.0
    decreases n
  {
    if percent >= 1.0 {
      CompleteStays(percent, dt, n);
    } else {
      assert n > 0;
      assert (n - 1) as real * (dt * 30.0) == n as real * (dt * 30.0) - dt * 30.0;
      UpdatesComplete(percent + dt * 30.0, dt, n - 1);
    }
  }

  /** Once progress has reached 1, further updates leave it unchanged. */
  lemma {:induction false} CompleteStays(percent: real, dt: real, n: nat)
    requires percent >= 1.0
    ensures AdvanceTimes(percent, dt, n) == percent
    decreases n
  {
    if n > 0 {
      CompleteStays(percent, dt, n - 1);
    }
  }

  /**
   * Committing a finished command does not change the picture: a render pass
   * over the history with the command appended draws the same strokes, ends
   * at the same transform and leaves the same pen as the pass that drew it in
   * flight at full progress, provided both passes start with the same pen.
   */
  lemma CommitKeepsPicture(trig: Trig, vp: Viewport, cmds: seq<DrawingCommand>, c: DrawingCommand, percent: real, later: real, pen: bool)
    requires percent >= 1.0
    ensures var before := RenderPass(trig, vp, cmds, Some(c), percent, pen);
            var after := RenderPass(trig, vp, cmds + [c], None, later, pen);
            after.strokes == before.strokes && after.transform == before.transform && after.penDown == before.penDown
  {
    var all := cmds + [c];
    assert all[..|cmds|] == cmds;
    var st := ReplayAll(trig, vp, StartReplay(trig, vp, pen), cmds);
    if c.GoTo? {
      assert st.(deg := st.deg + GetRotation(c)) == st;
    }
  }

  /**
   * `render` as written carries the pen from one frame into the next. After a
   * line and then `PenUp`, the frame that commits `PenUp` draws the line and
   * leaves the pen up; the next frame replays the same history from the pen
   * left up and draws nothing.
   */
  lemma PenLeaksAcrossFrames(trig: Trig, vp: Viewport)
    ensures var first := RenderPass(trig, vp, [Forward(10.0)], Some(PenUp), 1.0, true);
            var second := RenderPass(trig, vp, [Forward(10.0), PenUp], None, 1.0, first.penDown);
            |first.strokes| == 1 && !first.penDown && |second.strokes| == 0
  {
    var line: seq<DrawingCommand> := [Forward(10.0)];
    var history: seq<DrawingCommand> := line + [PenUp];
    assert history[..1] == line && line[..0] == [];
    var up := StartReplay(trig, vp, true);
    var a := ReplayAll(trig, vp, up, line);
    assert ReplayAll(trig, vp, up, line[..0]) == up;
    assert a == Draw(trig, vp, up.(deg := up.deg + 0.0), Forward(10.0), 1.0);
    assert |a.strokes| == 1 && a.penDown;
    var down := StartReplay(trig, vp, false);
    var b := ReplayAll(trig, vp, down, line);
    assert ReplayAll(trig, vp, down, line[..0]) == down;
    assert b == Draw(trig, vp, down.(deg := down.deg + 0.0), Forward(10.0), 1.0);
    assert |b.strokes| == 0 && !b.penDown;
    assert ReplayAll(trig, vp, down, history) == Draw(trig, vp, b.(deg := b.deg + 0.0), PenUp, 1.0);
    var first := RenderPass(trig, vp, line, Some(PenUp), 1.0, true);
    assert first == Draw(trig, vp, a, PenUp, 1.0);
    assert history == [Forward(10.0), PenUp];
    assert RenderPass(trig, vp, history, None, 1.0, false) == ReplayAll(trig, vp, down, history);
  }

  class TurtleTask {
    var cmds: seq<DrawingCommand>
    var currentCommand: Option<DrawingCommand>
    var percent: real
    var isPenDown: bool

    constructor ()
      ensures cmds == [] && currentCommand == None && percent == 0.0 && isPenDown
    {
      cmds := [];
      currentCommand := None;
      percent := 0.0;
      isPenDown := true;
    }

    /** `update`: advance the command in flight by the elapsed time. */
    method Update(dt: real)
      modifies this`percent
      ensures percent == Advance(old(percent), dt)
    {
      if percent < 1.0 {
        percent := percent + dt * 30.0;
      }
    }

    /**
     * The state-changing part of `render`: replay the history and the command
     * in flight, leave the pen as the replay left it, and commit the command
     * in flight once its progress has reached 1.
     */
    method Render(trig: Trig, vp: Viewport) returns (strokes: seq<Stroke>, turtle: Matrix2d)
      modifies this
      ensures var r := RenderPass(trig, vp, old(cmds), old(currentCommand), old(percent), old(isPenDown));
        strokes == r.strokes && turtle == r.transform && isPenDown == r.penDown
      ensures percent == old(percent)
      ensures if old(currentCommand).Some? && Min(old(percent), 1.0) >= 1.0
              then cmds == old(cmds) + [old(currentCommand).value] && currentCommand == None
              else cmds == old(cmds) && currentCommand == old(currentCommand)
    {
      var transform := RotDeg(trig, Trans(vp.view, vp.cx, vp.cy), -90.0);
      var pct := 1.0;
      var full := false;
      var done := false;
      var deg := -90.0;
      strokes := [];
      ghost var history, start := cmds, StartReplay(trig, vp, isPenDown);
      ghost var current, percent0, pen0 := currentCommand, percent, isPenDown;

      var index := 0;
      while !done
        invariant percent == percent0
        invariant 0 <= index <= |history|
        invariant !done ==> cmds == history && currentCommand == current && !full && pct == 1.0
        invariant !done ==> Replay(transform, deg, isPenDown, strokes) == ReplayAll(trig, vp, start, history[..index])
        invariant done ==> current.Some? && full == (Min(percent0, 1.0) >= 1.0)
        invariant done ==> Replay(transform, deg, isPenDown, strokes)
                           == RenderPass(trig, vp, history, current, percent0, pen0)
        invariant done && full ==> cmds == history + [current.value] && currentCommand == None
        invariant done && !full ==> cmds == history && currentCommand == current
        decreases if done then 0 else 1, |history| - index
      {
        var cmd;
        index, deg, cmd, pct, full, done := Fetch(index, deg, pct, full);
        if !done {
          ReplayAllStep(trig, vp, start, history, index);
        } else {
          assert history[..index] == history;
        }
        if cmd.None? {
          break;
        }
        var c := cmd.value;
        if full {
          cmds := cmds + [c];
          currentCommand := None;
        }
        transform, strokes := Perform(trig, vp, c, pct, deg, transform, strokes);
      }
      turtle := transform;
    }
  
    /**
     * The next command of a replay: the next one of the history, with its
     * turn added to the heading, or else the command in flight, at its
     * progress capped at 1, which ends the replay.
     */
    method Fetch(index: nat, deg: real, pct: real, full: bool)
      returns (index': nat, deg': real, cmd: Option<DrawingCommand>, pct': real, full': bool, done: bool)
      requires index <= |cmds|
      ensures index < |cmds| ==> && index' == index + 1 && deg' == deg + GetRotation(cmds[index])
                                 && cmd == Some(cmds[index]) && pct' == pct && full' == full && !done
      ensures index == |cmds| ==> && index' == index && deg' == deg && cmd == currentCommand
                                  && pct' == Min(percent, 1.0) && full' == (pct' >= 1.0) && done
    {
      index', deg', pct', full', done := index, deg, pct, full, false;
      if index < |cmds| {
        index' := index + 1;
        var c := cmds[index' - 1];
        deg' := deg + GetRotation(c);
        cmd := Some(c);
      } else {
        pct' := Min(percent, 1.0);
        full' := pct' >= 1.0;
        done := true;
        cmd := currentCommand;
      }
    }

    /** The drawing of one replayed command, at progress `pct`, with heading `deg` so far. */
    method Perform(trig: Trig, vp: Viewport, c: DrawingCommand, pct: real, deg: real, transform: Matrix2d, strokes: seq<Stroke>)
      returns (transform': Matrix2d, strokes': seq<Stroke>)
      modifies this`isPenDown
      ensures Replay(transform', deg, isPenDown, strokes')
           == Draw(trig, vp, Replay(transform, deg, old(isPenDown), strokes), c, pct)
    {
      transform', strokes' := transform, strokes;
      match c {
        case Forward(dist) =>
          if isPenDown {
            var stroke := Stroke(transform, Portion(dist, pct));
            strokes' := strokes + [stroke];
          }
          transform' := Trans(transform, Portion(dist, pct), 0.0);
        case Right(d) => transform' := RotDeg(trig, transform, Portion(d, pct));
        case Left(d) => transform' := RotDeg(trig, transform, Portion(-d, pct));
        case PenDown => isPenDown := true;
        case PenUp => isPenDown := false;
        case GoTo(x, y) => transform' := RotDeg(trig, Trans(vp.view, x + vp.cx, y + vp.cy), deg);
      }
    }

    /**
     * `render` with the pen put down before the replay starts, as it is when
     * a `TurtleTask` is created, so that every frame replays the history from the
     * same pen state.
     */
    method RenderFreshPen(trig: Trig, vp: Viewport) returns (strokes: seq<Stroke>, turtle: Matrix2d)
      modifies this
      ensures var r := RenderPass(trig, vp, old(cmds), old(currentCommand), old(percent), true);
        strokes == r.strokes && turtle == r.transform && isPenDown == r.penDown
      ensures percent == old(percent)
      ensures if old(currentCommand).Some? && Min(old(percent), 1.0) >= 1.0
              then cmds == old(cmds) + [old(currentCommand).value] && currentCommand == None
              else cmds == old(cmds) && currentCommand == old(currentCommand)
    {
      isPenDown := true;
      strokes, turtle := Render(trig, vp);
    }
  }

  /**
   * The event loop of `Turtle::start`: the `TurtleTask` it drives and whether the
   * command last received has been acknowledged to the drawing thread.
   */
  class EventLoop {
    const task: TurtleTask
    var commandComplete: bool

    constructor ()
      ensures fresh(task) && commandComplete
      ensures task.cmds == [] && task.currentCommand == None && task.percent == 0.0 && task.isPenDown
    {
      task := new TurtleTask();
      commandComplete := true;
    }

    /**
     * The command handling at the top of each loop turn. A received
     * `ClearScreen` empties the history and is acknowledged at once; any
     * other command becomes the command in flight at progress 0 and is
     * pending. A pending command is acknowledged once no command is in
     * flight any more. `acks` counts the replies sent to the drawing thread.
     */
    method Receive(received: Option<Command>) returns (acks: nat)
      modifies this, task
      ensures task.isPenDown == old(task.isPenDown)
      ensures received == Some(ClearScreen) ==>
                task.cmds == [] && task.currentCommand == old(task.currentCommand) && task.percent == old(task.percent)
      ensures received.Some? && received.value != ClearScreen ==>
                task.cmds == old(task.cmds) && task.currentCommand == received && task.percent == 0.0
      ensures received.None? ==>
                task.cmds == old(task.cmds) && task.currentCommand == old(task.currentCommand) && task.percent == old(task.percent)
      ensures var pending := (received.Some? && received.value != ClearScreen) || !old(commandComplete);
              var finished := pending && task.currentCommand.None?;
              && commandComplete == (!pending || finished)
              && acks == (if received == Some(ClearScreen) then 1 else 0) + (if finished then 1 else 0)
    {
      acks := 0;
      if received.Some? {
        match received.value {
          case ClearScreen =>
            task.cmds := [];
            acks := acks + 1;
          case _ =>
            task.currentCommand := received;
            task.percent := 0.0;
            commandComplete := false;
        }
      }
      if !commandComplete && task.currentCommand.None? {
        commandComplete := true;
        acks := acks + 1;
      }
    }
  }

  /**
   * A forward move through the loop: no reply while it is in flight, and one
   * reply on the turn after a frame has drawn it at full progress and
   * committed it to the history.
   */
  method ForwardIsAcknowledged(trig: Trig, vp: Viewport, dist: real) returns (early: nat, late: nat, history: seq<Command>)
    ensures early == 0 && late == 1 && history == [Forward(dist)]
  {
    var loop := new EventLoop();
    early := loop.Receive(Some(Forward(dist)));
    loop.task.Update(1.0 / 30.0);
    var strokes, turtle := loop.task.Render(trig, vp);
    late := loop.Receive(None);
    history := loop.task.cmds;
  }
}
