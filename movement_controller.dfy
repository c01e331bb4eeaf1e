/** The movement controller (utils/bot/movement_controller.py): a bounded,
    tolerance-gated horizontal walk of timed direction holds, then a bounded
    vertical walk of rope and drop steps, re-reading the position before every
    step. */
module Movement {
  import opened Effects
  import opened BotAction
  import Input
  import Utils

  /** A player position in minimap pixels; y grows downwards. */
  datatype Pos = Pos(x: int, y: int)

  datatype Axis = X | Y

  /** The controller's numeric settings. */
  datatype Tuning = Tuning(xTol: int, yTol: int, speed: real, offset: real)

  /** The default of both `x_tolerance` and `y_tolerance`. */
  const DefaultTolerance: int := 5

  /** What a step depends on: the bindings, the key map and the settings. */
  datatype Env = Env(config: BotConfig, vkMap: map<string, int>, tuning: Tuning)

  function Abs(n: int): nat {
    if n < 0 then -n else n
  }

  // ---------------------------------------------------------------------
  // Hold time of one horizontal step
  // ---------------------------------------------------------------------

  /** `max(0.02, min(t, 1.0))` */
  function Clamp(t: real): (r: real)
    ensures 0.02 <= r <= 1.0
    ensures 0.02 <= t <= 1.0 ==> r == t
    ensures t < 0.02 ==> r == 0.02
    ensures t > 1.0 ==> r == 1.0
  {
    var m := if t < 1.0 then t else 1.0;
    if 0.02 > m then 0.02 else m
  }

  /** `max(0.0, abs(diff) - x_tol)` */
  function Remaining(diff: int, tol: int): (r: real)
    ensures r >= 0.0
    ensures Abs(diff) > tol ==> r == (Abs(diff) - tol) as real
  {
    if Abs(diff) - tol > 0 then (Abs(diff) - tol) as real else 0.0
  }

  /** The seconds to hold the direction key: remaining distance over speed,
      less the offset, clamped; a zero speed divides by zero. */
  function HoldTime(diff: int, t: Tuning): (r: Result<real>)
    ensures r.Err? <==> t.speed == 0.0
    ensures r.Err? ==> r.error == ZeroDivision
    ensures r.Ok? ==> 0.02 <= r.value <= 1.0
  {
    if t.speed == 0.0 then Err(ZeroDivision)
    else Ok(Clamp(Remaining(diff, t.xTol) / t.speed - t.offset))
  }

  lemma ClampMonotone(a: real, b: real)
    requires a <= b
    ensures Clamp(a) <= Clamp(b)
  {
  }

  /** With a positive speed, a farther target is held at least as long. */
  lemma {:induction false} HoldTimeMonotone(d1: int, d2: int, t: Tuning)
    requires t.speed > 0.0 && Abs(d1) <= Abs(d2)
    ensures HoldTime(d1, t).Ok? && HoldTime(d2, t).Ok?
    ensures HoldTime(d1, t).value <= HoldTime(d2, t).value
  {
    var r1 := Remaining(d1, t.xTol);
    var r2 := Remaining(d2, t.xTol);
    assert r1 <= r2;
    assert r1 / t.speed <= r2 / t.speed by {
      DivMonotone(r1, r2, t.speed);
    }
    ClampMonotone(r1 / t.speed - t.offset, r2 / t.speed - t.offset);
  }

  lemma DivMonotone(a: real, b: real, s: real)
    requires a <= b && s > 0.0
    ensures a / s <= b / s
  {
    assert b / s - a / s == (b - a) / s;
  }

  // ---------------------------------------------------------------------
  // One step of each phase
  // ---------------------------------------------------------------------

  /** `"move_right" if diff > 0 else "move_left"` */
  function Direction(diff: int): (a: string)
    ensures a == "move_right" <==> diff > 0
    ensures a == "move_left" <==> diff <= 0
  {
    if diff > 0 then "move_right" else "move_left"
  }

  /** One horizontal step: hold the direction for the hold time, then 0.03 s. */
  function HorizontalMove(env: Env, diff: int): Run {
    match HoldTime(diff, env.tuning)
    case Err(e) => Raise(e)
    case Ok(hold) => Then(Utils.HoldActionRun(env.config, env.vkMap, "movement", Direction(diff), Pause(hold)), Pause(0.03))
  }

  /** _vertical_down_step: hold move_down around one jump press and 0.15 s. */
  function DownStep(env: Env): Run {
    Utils.HoldActionRun(env.config, env.vkMap, "movement", "move_down",
      Then(Utils.PressActionRun(env.config, env.vkMap, "movement", "jump", 1, Seconds(0.0)), Pause(0.15)))
  }

  /** _vertical_up_step: one up_rope press, then 0.30 s. */
  function UpStep(env: Env): Run {
    Then(Utils.PressActionRun(env.config, env.vkMap, "movement", "up_rope", 1, Seconds(0.0)), Pause(0.30))
  }

  /** One vertical step: down when the target is lower, up otherwise, then 0.05 s. */
  function VerticalMove(env: Env, diff: int): Run {
    Then(if diff > 0 then DownStep(env) else UpStep(env), Pause(0.05))
  }

  function Move(env: Env, axis: Axis, diff: int): Run {
    if axis == X then HorizontalMove(env, diff) else VerticalMove(env, diff)
  }

  // ---------------------------------------------------------------------
  // The walks: a bounded loop that reads a position, stops once within
  // tolerance, and otherwise takes one step toward the target
  // ---------------------------------------------------------------------

  /** A walk so far: what it did, the next read index, whether it broke out
      because the position was within tolerance. */
  datatype Walk = Walk(run: Run, cursor: nat, arrived: bool)

  /** One loop iteration for the step `step` taken at a difference, `gap(k)`
      the difference at the k-th read; a walk that has raised or arrived stays
      as it is. */
  function Advance(step: int -> Run, gap: nat -> int, tol: int, w: Walk): Walk {
    if w.run.outcome.Fail? || w.arrived then w
    else if Abs(gap(w.cursor)) <= tol then Walk(w.run, w.cursor + 1, true)
    else Walk(Then(w.run, step(gap(w.cursor))), w.cursor + 1, false)
  }

  /** The walk after `n` iterations, starting at read index `start`. */
  function Walked(step: int -> Run, gap: nat -> int, tol: int, start: nat, n: nat): Walk {
    if n == 0 then Walk(Done, start, false)
    else Advance(step, gap, tol, Walked(step, gap, tol, start, n - 1))
  }

  /** The steps at read indices start .. start + count - 1, in order, stopped
      by the first that raises. */
  function Steps(step: int -> Run, gap: nat -> int, start: nat, count: nat): Run {
    if count == 0 then Done
    else Then(Steps(step, gap, start, count - 1), step(gap(start + count - 1)))
  }

  /** One iteration that takes the step `r`: the walk and the effect log grow
      together. */
  lemma WalkGrows(step: int -> Run, gap: nat -> int, tol: int, start: nat, i: nat, w: Walk,
                  log0: seq<Effect>, r: Run)
    requires w == Walked(step, gap, tol, start, i) && w.run.outcome.Pass? && !w.arrived
    requires Abs(gap(w.cursor)) > tol && step(gap(w.cursor)) == r
    ensures var next := Advance(step, gap, tol, w);
      && next == Walked(step, gap, tol, start, i + 1)
      && next.run.outcome == r.outcome && next.cursor == w.cursor + 1 && !next.arrived
      && (log0 + w.run.effects) + r.effects == log0 + next.run.effects
  {
    AppendAssoc(log0, w.run.effects, r.effects);
  }

  lemma {:induction false} WalkedSticks(step: int -> Run, gap: nat -> int, tol: int, start: nat, m: nat, n: nat)
    requires m <= n
    requires Walked(step, gap, tol, start, m).run.outcome.Fail? || Walked(step, gap, tol, start, m).arrived
    ensures Walked(step, gap, tol, start, n) == Walked(step, gap, tol, start, m)
  {
    if m < n {
      WalkedSticks(step, gap, tol, start, m, n - 1);
    }
  }

  /** A walk of `n` iterations reads at most `n` positions; it stops at the
      first read within tolerance; every earlier read was out of tolerance and
      gave one step, in order, so at most `n` steps are taken; one that neither
      arrived nor raised used all `n` iterations. */
  lemma {:induction false} WalkedStops(step: int -> Run, gap: nat -> int, tol: int, start: nat, n: nat)
    ensures var w := Walked(step, gap, tol, start, n);
      var taken := w.cursor - start - (if w.arrived then 1 else 0);
      && start <= w.cursor <= start + n
      && (w.arrived ==> w.cursor > start && Abs(gap(w.cursor - 1)) <= tol)
      && (forall k :: start <= k < start + taken ==> Abs(gap(k)) > tol)
      && 0 <= taken <= n
      && w.run == Steps(step, gap, start, taken)
      && (!w.arrived && w.run.outcome.Pass? ==> w.cursor == start + n)
  {
    if n > 0 {
      WalkedStops(step, gap, tol, start, n - 1);
    }
  }

  /** With a difference that never changes (a position that never changes), a
      walk either stops at its first read and does nothing, or repeats the same
      step for every one of its `n` iterations. */
  lemma {:induction false} ConstantGapWalk(step: int -> Run, gap: nat -> int, tol: int, start: nat, n: nat, diff: int)
    requires forall k: nat :: gap(k) == diff
    ensures var w := Walked(step, gap, tol, start, n);
      if Abs(diff) <= tol then
        w.run == Done && (n > 0 ==> w.arrived && w.cursor == start + 1)
      else
        !w.arrived && w.run == Repeat(step(diff), n) &&
        (w.run.outcome.Pass? ==> w.cursor == start + n)
  {
    if n > 0 {
      ConstantGapWalk(step, gap, tol, start, n - 1, diff);
      var prev := Walked(step, gap, tol, start, n - 1);
      if Abs(diff) > tol && prev.run.outcome.Fail? {
        RepeatFailSticks(step(diff), n - 1, n);
      }
    }
  }

  // ---------------------------------------------------------------------
  // The two phases
  // ---------------------------------------------------------------------

  function Coord(axis: Axis, p: Pos): int {
    if axis == X then p.x else p.y
  }

  function Tol(axis: Axis, t: Tuning): int {
    if axis == X then t.xTol else t.yTol
  }

  /** `max_steps` of each phase. */
  function MaxSteps(axis: Axis): nat {
    if axis == X then 20 else 100
  }

  function StepOf(env: Env, axis: Axis): int -> Run {
    d => Move(env, axis, d)
  }

  /** The difference at each read. */
  function GapOf(feed: nat -> Pos, axis: Axis, target: int): nat -> int {
    (k: nat) => target - Coord(axis, feed(k))
  }

  /** `_move_horizontally_to` (axis X) or `_move_vertically_to` (axis Y)
      taking the step `step` at each difference. */
  function Phase(step: int -> Run, feed: nat -> Pos, axis: Axis, target: int, t: Tuning, start: nat): Walk {
    Walked(step, GapOf(feed, axis, target), Tol(axis, t), start, MaxSteps(axis))
  }

  /** A phase takes at most its maximum number of steps (20 horizontal, 100
      vertical), each at a read out of tolerance, and stops at the first read
      within tolerance. */
  lemma PhaseBound(step: int -> Run, feed: nat -> Pos, axis: Axis, target: int, t: Tuning, start: nat)
    ensures var w := Phase(step, feed, axis, target, t, start);
      var taken := w.cursor - start - (if w.arrived then 1 else 0);
      && start <= w.cursor <= start + MaxSteps(axis)
      && 0 <= taken <= MaxSteps(axis)
      && (w.arrived ==> w.cursor > start && Abs(target - Coord(axis, feed(w.cursor - 1))) <= Tol(axis, t))
      && (forall k :: start <= k < start + taken ==> Abs(target - Coord(axis, feed(k))) > Tol(axis, t))
      && w.run == Steps(step, GapOf(feed, axis, target), start, taken)
  {
    var gap := GapOf(feed, axis, target);
    assert forall k: nat :: gap(k) == target - Coord(axis, feed(k));
    WalkedStops(step, gap, Tol(axis, t), start, MaxSteps(axis));
  }

  /** With a constant position (the tuple the source unpacks) whose step does
      not raise, a phase does nothing or takes exactly its maximum number of
      steps, all the same. */
  lemma ConstantPositionPhase(step: int -> Run, feed: nat -> Pos, axis: Axis, target: int, t: Tuning, start: nat, p: Pos)
    requires forall k: nat :: feed(k) == p
    requires step(target - Coord(axis, p)).outcome.Pass?
    ensures var w := Phase(step, feed, axis, target, t, start);
      var diff := target - Coord(axis, p);
      if Abs(diff) <= Tol(axis, t) then w.run.effects == []
      else w.run.effects == Copies(step(diff).effects, MaxSteps(axis))
  {
    var diff := target - Coord(axis, p);
    var gap := GapOf(feed, axis, target);
    assert forall k: nat :: gap(k) == diff;
    ConstantGapWalk(step, gap, Tol(axis, t), start, MaxSteps(axis), diff);
    RepeatPassing(step(diff), MaxSteps(axis));
  }

  /** move_to_point: the horizontal phase, then, unless it raised, the
      vertical phase starting at the next read. */
  datatype Trip = Trip(run: Run, cursor: nat)

  /** What a controller moves by: its two steps, its position feed and its
      tuning. */
  datatype Walker = Walker(hstep: int -> Run, vstep: int -> Run, feed: nat -> Pos, tuning: Tuning)

  function Approach(wk: Walker, point: Point, start: nat): Trip {
    var h := Phase(wk.hstep, wk.feed, X, point.x, wk.tuning, start);
    if h.run.outcome.Fail? then Trip(h.run, h.cursor)
    else
      var v := Phase(wk.vstep, wk.feed, Y, point.y, wk.tuning, h.cursor);
      Trip(Then(h.run, v.run), v.cursor)
  }

  /** The horizontal phase completes before the vertical one starts: the trip's
      effects are the whole horizontal phase followed by the vertical phase,
      whose reads all come after the horizontal ones; at most 120 reads in all. */
  lemma ApproachPhases(wk: Walker, point: Point, start: nat)
    ensures var trip := Approach(wk, point, start);
      var h := Phase(wk.hstep, wk.feed, X, point.x, wk.tuning, start);
      && start <= h.cursor <= start + 20
      && h.cursor <= trip.cursor <= start + 120
      && (h.run.outcome.Fail? ==> trip.run == h.run && trip.cursor == h.cursor)
      && (h.run.outcome.Pass? ==>
            var v := Phase(wk.vstep, wk.feed, Y, point.y, wk.tuning, h.cursor);
            trip.run.effects == h.run.effects + v.run.effects && trip.run.outcome == v.run.outcome)
  {
    var h := Phase(wk.hstep, wk.feed, X, point.x, wk.tuning, start);
    PhaseBound(wk.hstep, wk.feed, X, point.x, wk.tuning, start);
    PhaseBound(wk.vstep, wk.feed, Y, point.y, wk.tuning, h.cursor);
  }

  // ---------------------------------------------------------------------
  // Key events of single steps
  // ---------------------------------------------------------------------

  /** A horizontal step with a nonzero speed holds exactly the
      chosen direction: one down and one up of its code, and nothing else. */
  lemma HorizontalMoveKeys(env: Env, diff: int, key: string, vk: int)
    requires env.tuning.speed != 0.0
    requires Utils.HoldKey(env.config, "movement", Direction(diff)) == Ok(key)
    requires Input.Vk(env.vkMap, key) == Ok(vk)
    ensures HorizontalMove(env, diff).outcome == Pass
    ensures Input.KeyEvents(HorizontalMove(env, diff).effects) == [KeyDown(vk), KeyUp(vk)]
  {
    var hold := HoldTime(diff, env.tuning).value;
    var r := HorizontalMove(env, diff);
    assert r.effects == [KeyDown(vk)] + [Sleep(Seconds(hold))] + [KeyUp(vk)] + [Sleep(Seconds(0.03))];
    SleepsDropped4(KeyDown(vk), Sleep(Seconds(hold)), KeyUp(vk), Sleep(Seconds(0.03)));
  }

  lemma SleepsDropped4(a: Effect, b: Effect, c: Effect, d: Effect)
    ensures Input.KeyEvents([a] + [b] + [c] + [d]) ==
      Input.KeyEvents([a]) + Input.KeyEvents([b]) + Input.KeyEvents([c]) + Input.KeyEvents([d])
  {
    Input.KeyEventsAppend([a], [b]);
    Input.KeyEventsAppend([a] + [b], [c]);
    Input.KeyEventsAppend([a] + [b] + [c], [d]);
  }

  /** A down step holds move_down around exactly one jump press. */
  lemma DownStepKeys(env: Env, down: string, vd: int, jump: string, vj: int)
    requires Utils.HoldKey(env.config, "movement", "move_down") == Ok(down)
    requires Input.Vk(env.vkMap, down) == Ok(vd)
    requires GetKey(env.config, "movement", "jump") == Ok(Some(jump)) && jump != ""
    requires Input.Vk(env.vkMap, jump) == Ok(vj)
    ensures DownStep(env).outcome == Pass
    ensures Input.KeyEvents(DownStep(env).effects) == [KeyDown(vd), KeyDown(vj), KeyUp(vj), KeyUp(vd)]
  {
    var press := Utils.PressActionRun(env.config, env.vkMap, "movement", "jump", 1, Seconds(0.0));
    assert press == Input.PressRun(env.vkMap, jump, 1, Seconds(0.0));
    Input.PressEmitsPairs(env.vkMap, jump, 1, Seconds(0.0));
    assert Input.KeyEvents(press.effects) == [KeyDown(vj), KeyUp(vj)];
    var body := Then(press, Pause(0.15));
    assert body.effects == press.effects + [Sleep(Seconds(0.15))];
    Input.KeyEventsSleepTail(press.effects, Seconds(0.15));
    assert DownStep(env) == Input.HoldRun(env.vkMap, down, body);
    Input.KeyEventsBracket(KeyDown(vd), body.effects, KeyUp(vd));
  }

  /** An up step is exactly one up_rope press. */
  lemma UpStepKeys(env: Env, rope: string, vr: int)
    requires GetKey(env.config, "movement", "up_rope") == Ok(Some(rope)) && rope != ""
    requires Input.Vk(env.vkMap, rope) == Ok(vr)
    ensures UpStep(env).outcome == Pass
    ensures Input.KeyEvents(UpStep(env).effects) == [KeyDown(vr), KeyUp(vr)]
  {
    var press := Utils.PressActionRun(env.config, env.vkMap, "movement", "up_rope", 1, Seconds(0.0));
    assert press == Input.PressRun(env.vkMap, rope, 1, Seconds(0.0));
    Input.PressEmitsPairs(env.vkMap, rope, 1, Seconds(0.0));
    Input.KeyEventsSleepTail(press.effects, Seconds(0.30));
  }

  /** A vertical step goes down iff the target is lower on screen. */
  lemma VerticalMoveChoice(env: Env, diff: int)
    ensures diff > 0 ==> VerticalMove(env, diff) == Then(DownStep(env), Pause(0.05))
    ensures diff <= 0 ==> VerticalMove(env, diff) == Then(UpStep(env), Pause(0.05))
  {
  }

  // ---------------------------------------------------------------------
  // How the position is read
  // ---------------------------------------------------------------------

  /** What the controller is given as `get_position`: a position, or the
      callable AutoBot passes. */
  datatype PositionArg = TupleArg(pos: Pos) | CallableArg(read: nat -> Pos)

  /** `cur_x, _ = self.get_position`, as written: the argument is unpacked
      without being called, which raises TypeError for a callable. */
  function UnpackAsWritten(arg: PositionArg): (r: Result<Pos>)
    ensures r.Ok? <==> arg.TupleArg?
  {
    match arg
    case TupleArg(p) => Ok(p)
    case CallableArg(_) => Err(NotIterable)
  }

  /** The k-th read as intended: a callable is called, a tuple is constant. */
  function ReadIntended(arg: PositionArg, k: nat): Pos {
    match arg
    case TupleArg(p) => p
    case CallableArg(read) => read(k)
  }

  /** The feed the model walks with: the callable's reads, or the tuple at
      every read, which is what the source gets wherever its unpacking works. */
  function FeedOf(arg: PositionArg): (f: nat -> Pos)
    ensures arg.CallableArg? ==> forall k: nat :: f(k) == arg.read(k)
    ensures UnpackAsWritten(arg).Ok? ==> forall k: nat :: f(k) == UnpackAsWritten(arg).value
  {
    (k: nat) => ReadIntended(arg, k)
  }

  /** With the callable AutoBot supplies, every as-written read raises
      TypeError, so no move ever emits a key; the intended read yields the
      callable's value. With a tuple the two agree and the feed is constant. */
  lemma PositionReading(arg: PositionArg, k: nat)
    ensures arg.CallableArg? ==> UnpackAsWritten(arg) == Err(NotIterable) && FeedOf(arg)(k) == arg.read(k)
    ensures arg.TupleArg? ==> UnpackAsWritten(arg) == Ok(FeedOf(arg)(k)) && FeedOf(arg)(k) == arg.pos
  {
  }

  /** move_to_point as written: the first statement of the first horizontal
      iteration unpacks the argument, so an argument that does not unpack
      raises there, before any effect; a tuple moves by its constant feed. */
  function ApproachAsWritten(wk: Walker, arg: PositionArg, point: Point, start: nat): Trip {
    match UnpackAsWritten(arg)
    case Err(e) => Trip(Run([], Fail(e)), start)
    case Ok(_) => Approach(wk.(feed := FeedOf(arg)), point, start)
  }

  /** With the callable AutoBot passes, every move as written raises
      TypeError without sending a single key or reading a position, whatever
      the point; with a tuple it is the intended move on a constant feed. */
  lemma AsWrittenSendsNoKey(wk: Walker, arg: PositionArg, point: Point, start: nat)
    ensures arg.CallableArg? ==>
      ApproachAsWritten(wk, arg, point, start) == Trip(Run([], Fail(NotIterable)), start)
    ensures arg.TupleArg? ==>
      ApproachAsWritten(wk, arg, point, start) == Approach(wk.(feed := FeedOf(arg)), point, start)
  {
  }

  // ---------------------------------------------------------------------
  // The controller
  // ---------------------------------------------------------------------

  /** Marks a difference at which a step is taken; the meaning of the
      controller's steps is stated for marked differences only, which keeps
      the loops from unfolding every step they could take. */
  ghost predicate StepAt(diff: int) {
    true
  }

  class MovementController {
    const utils: Utils.BotUtils
    const feed: nat -> Pos
    const tuning: Tuning
    /** How many positions have been read so far. */
    var cursor: nat
    /** The bindings and tuning the controller was built with. */
    ghost const bindings: Env
    /** The horizontal and vertical step at each difference. */
    ghost const hstep: int -> Run
    ghost const vstep: int -> Run

    /** The steps are those of the bindings the controller was built with,
        and the shared configuration still holds those bindings. */
    ghost predicate Linked()
      reads utils
    {
      && bindings == Env(utils.config, utils.input.vkMap, tuning)
      && (forall d {:trigger StepAt(d)} :: StepAt(d) ==>
            hstep(d) == HorizontalMove(bindings, d) && vstep(d) == VerticalMove(bindings, d))
    }

    ghost function WalkerOf(): Walker {
      Walker(hstep, vstep, feed, tuning)
    }

    ghost predicate Built() {
      hstep == StepOf(bindings, X) && vstep == StepOf(bindings, Y)
    }

    constructor (utils: Utils.BotUtils, position: PositionArg, xTol: int, yTol: int, speed: real, offset: real)
      ensures this.utils == utils && feed == FeedOf(position) && cursor == 0
      ensures tuning == Tuning(xTol, yTol, speed, offset)
      ensures bindings == Env(utils.config, utils.input.vkMap, tuning)
      ensures Linked() && Built()
    {
      this.utils := utils;
      feed := FeedOf(position);
      tuning := Tuning(xTol, yTol, speed, offset);
      cursor := 0;
      bindings := Env(utils.config, utils.input.vkMap, Tuning(xTol, yTol, speed, offset));
      hstep := StepOf(Env(utils.config, utils.input.vkMap, Tuning(xTol, yTol, speed, offset)), X);
      vstep := StepOf(Env(utils.config, utils.input.vkMap, Tuning(xTol, yTol, speed, offset)), Y);
    }

    method ReadPosition() returns (p: Pos)
      modifies this
      ensures p == feed(old(cursor)) && cursor == old(cursor) + 1
    {
      p := feed(cursor);
      cursor := cursor + 1;
    }

    method MoveToPoint(point: Point) returns (o: Outcome)
      requires Linked()
      modifies this, utils.input.log
      ensures var trip := Approach(WalkerOf(), point, old(cursor));
        utils.input.log.entries == old(utils.input.log.entries) + trip.run.effects &&
        o == trip.run.outcome && cursor == trip.cursor
    {
      o := MoveHorizontally(point.x);
      if o.Fail? {
        return;
      }
      o := MoveVertically(point.y);
    }

    method MoveHorizontally(targetX: int) returns (o: Outcome)
      requires Linked()
      modifies this, utils.input.log
      ensures var w := Phase(hstep, feed, X, targetX, tuning, old(cursor));
        utils.input.log.entries == old(utils.input.log.entries) + w.run.effects &&
        o == w.run.outcome && cursor == w.cursor
    {
      ghost var gap := GapOf(feed, X, targetX);
      ghost var start := cursor;
      ghost var w := Walk(Done, cursor, false);
      var log := utils.input.log;
      ghost var log0 := log.entries;
      o := Pass;
      for i := 0 to 20
        invariant w == Walked(hstep, gap, tuning.xTol, start, i)
        invariant w.run.outcome == Pass && !w.arrived && w.cursor == cursor
        invariant log.entries == log0 + w.run.effects
        invariant o == Pass
      {
        var p := ReadPosition();
        var diff := targetX - p.x;
        assert gap(w.cursor) == diff;
        if Abs(diff) <= tuning.xTol {
          w := Advance(hstep, gap, tuning.xTol, w);
          WalkedSticks(hstep, gap, tuning.xTol, start, i + 1, 20);
          return;
        }
        o := HorizontalStep(diff);
        WalkGrows(hstep, gap, tuning.xTol, start, i, w, log0, hstep(diff));
        w := Advance(hstep, gap, tuning.xTol, w);
        if o.Fail? {
          WalkedSticks(hstep, gap, tuning.xTol, start, i + 1, 20);
          return;
        }
      }
    }

    /** One horizontal iteration past the tolerance check: the hold time, the
        direction held for that long, then 0.03 s. */
    method HorizontalStep(diff: int) returns (o: Outcome)
      requires Linked()
      modifies utils.input.log
      ensures utils.input.log.entries == old(utils.input.log.entries) + hstep(diff).effects
      ensures o == hstep(diff).outcome
    {
      assert StepAt(diff);
      var log := utils.input.log;
      var dir := Direction(diff);
      var remaining := Remaining(diff, tuning.xTol);
      if tuning.speed == 0.0 {
        return Fail(ZeroDivision);
      }
      var hold := Clamp(remaining / tuning.speed - tuning.offset);
      assert HoldTime(diff, tuning) == Ok(hold);
      var key, held := utils.HoldBegin("movement", dir);
      if held.Fail? {
        return held;
      }
      ghost var vk := Input.Vk(utils.input.vkMap, key).value;
      log.Wait(hold);
      utils.HoldEnd(key);
      log.Wait(0.03);
      o := Pass;
      assert Utils.HoldActionRun(utils.config, utils.input.vkMap, "movement", dir, Pause(hold)) ==
        Run([KeyDown(vk), Sleep(Seconds(hold)), KeyUp(vk)], Pass);
    }

    method MoveVertically(targetY: int) returns (o: Outcome)
      requires Linked()
      modifies this, utils.input.log
      ensures var w := Phase(vstep, feed, Y, targetY, tuning, old(cursor));
        utils.input.log.entries == old(utils.input.log.entries) + w.run.effects &&
        o == w.run.outcome && cursor == w.cursor
    {
      ghost var gap := GapOf(feed, Y, targetY);
      ghost var start := cursor;
      ghost var w := Walk(Done, cursor, false);
      var log := utils.input.log;
      ghost var log0 := log.entries;
      o := Pass;
      for i := 0 to 100
        invariant w == Walked(vstep, gap, tuning.yTol, start, i)
        invariant w.run.outcome == Pass && !w.arrived && w.cursor == cursor
        invariant log.entries == log0 + w.run.effects
        invariant o == Pass
      {
        var p := ReadPosition();
        var diff := targetY - p.y;
        assert gap(w.cursor) == diff;
        if Abs(diff) <= tuning.yTol {
          w := Advance(vstep, gap, tuning.yTol, w);
          WalkedSticks(vstep, gap, tuning.yTol, start, i + 1, 100);
          return;
        }
        o := VerticalStep(diff);
        WalkGrows(vstep, gap, tuning.yTol, start, i, w, log0, vstep(diff));
        w := Advance(vstep, gap, tuning.yTol, w);
        if o.Fail? {
          WalkedSticks(vstep, gap, tuning.yTol, start, i + 1, 100);
          return;
        }
      }
    }

    /** One vertical iteration past the tolerance check: a down step when the
        target is lower, an up step otherwise, then 0.05 s. */
    method VerticalStep(diff: int) returns (o: Outcome)
      requires Linked()
      modifies utils.input.log
      ensures utils.input.log.entries == old(utils.input.log.entries) + vstep(diff).effects
      ensures o == vstep(diff).outcome
    {
      assert StepAt(diff);
      if diff > 0 {
        o := VerticalDownStep();
      } else {
        o := VerticalUpStep();
      }
      if o.Fail? {
        return;
      }
      utils.input.log.Wait(0.05);
    }

    method VerticalDownStep() returns (o: Outcome)
      requires Linked()
      modifies utils.input.log
      ensures utils.input.log.entries == old(utils.input.log.entries) + DownStep(bindings).effects
      ensures o == DownStep(bindings).outcome
    {
      ghost var log0 := utils.input.log.entries;
      ghost var press := Utils.PressActionRun(bindings.config, bindings.vkMap, "movement", "jump", 1, Seconds(0.0));
      ghost var body := Then(press, Pause(0.15));
      var key, held := utils.HoldBegin("movement", "move_down");
      if held.Fail? {
        return held;
      }
      ghost var down := [KeyDown(Input.Vk(utils.input.vkMap, key).value)];
      o := utils.PressAction("movement", "jump", 1, Seconds(0.0));
      if o.Pass? {
        utils.input.log.Wait(0.15);
        AppendAssoc(log0 + down, press.effects, Pause(0.15).effects);
      }
      utils.HoldEnd(key);
      ghost var up := [KeyUp(Input.Vk(utils.input.vkMap, key).value)];
      AppendAssoc(log0, down, body.effects);
      AppendAssoc(log0, down + body.effects, up);
    }

    method VerticalUpStep() returns (o: Outcome)
      requires Linked()
      modifies utils.input.log
      ensures utils.input.log.entries == old(utils.input.log.entries) + UpStep(bindings).effects
      ensures o == UpStep(bindings).outcome
    {
      o := utils.PressAction("movement", "up_rope", 1, Seconds(0.0));
      if o.Pass? {
        utils.input.log.Wait(0.30);
      }
    }
  }
}
