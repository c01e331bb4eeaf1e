/** The bot controller (components/bot/auto_bot.py): its state machine, the
    summon cooldown table, and the key actions of the summon cycle and of a
    hunting pass. */
module Bot {
  import opened Effects
  import opened BotAction
  import Input
  import Utils
  import Movement

  // ---------------------------------------------------------------------
  // The state machine
  // ---------------------------------------------------------------------

  /** BotState, plus any other value the state field might hold. */
  datatype BotState = Initializing | Placement | Hunting | Rune | Unknown(code: int)

  /** The state after one pass of the main loop from `s`: `rune` is the rune
      flag as re-read after a hunting pass, `ready` whether some summon is
      ready. */
  function NextState(s: BotState, rune: bool, ready: bool): BotState {
    match s
    case Initializing => Placement
    case Placement => Hunting
    case Hunting => if rune then Rune else if ready then Placement else Hunting
    case Rune => Initializing
    case Unknown(_) => Initializing
  }

  /** Where each state can come from: RUNE only from a hunting pass that saw
      the flag (whatever the summons), PLACEMENT after initialising or after a
      hunting pass with no rune and a ready summon, HUNTING after placement or
      a hunting pass with neither, INITIALIZING after RUNE or an unknown state;
      no pass leaves the state unknown. */
  lemma TransitionSources(s: BotState, rune: bool, ready: bool)
    ensures NextState(s, rune, ready) == Rune <==> s == Hunting && rune
    ensures NextState(s, rune, ready) == Placement <==> s == Initializing || (s == Hunting && !rune && ready)
    ensures NextState(s, rune, ready) == Hunting <==> s == Placement || (s == Hunting && !rune && !ready)
    ensures NextState(s, rune, ready) == Initializing <==> s == Rune || s.Unknown?
    ensures !NextState(s, rune, ready).Unknown?
  {
  }

  /** Without a rune, every state reaches HUNTING within three passes. */
  lemma {:induction false} ReachesHunting(s: BotState, ready: bool)
    ensures var s1 := NextState(s, false, ready);
      var s2 := NextState(s1, false, ready);
      s == Hunting || s1 == Hunting || s2 == Hunting || NextState(s2, false, ready) == Hunting
  {
    if s == Hunting && ready {
      assert NextState(s, false, ready) == Placement;
    }
  }

  // ---------------------------------------------------------------------
  // The summon cooldown table
  // ---------------------------------------------------------------------

  /** The next-ready time of a summon, 0 when it has none (`.get(name, 0)`). */
  function ReadyAt(ready: map<string, real>, name: string): real {
    if name in ready then ready[name] else 0.0
  }

  /** _init_summon_cooldowns over the first summons: every one found in
      specials, ready at `now`. */
  function Seeded(c: BotConfig, summons: seq<SummonPoint>, now: real): map<string, real> {
    map name | name in (set i | 0 <= i < |summons| :: summons[i].name) && name in Group(c, "specials") :: now
  }

  /** Seeding puts exactly the summons found in specials into the table, all
      at the same time. */
  lemma SeededExactly(c: BotConfig, summons: seq<SummonPoint>, now: real, name: string)
    ensures name in Seeded(c, summons, now) <==>
      (exists i :: 0 <= i < |summons| && summons[i].name == name) && name in Group(c, "specials")
    ensures name in Seeded(c, summons, now) ==> Seeded(c, summons, now)[name] == now
  {
    if exists i :: 0 <= i < |summons| && summons[i].name == name {
      var i :| 0 <= i < |summons| && summons[i].name == name;
      assert name in (set i | 0 <= i < |summons| :: summons[i].name);
    }
  }

  /** One more summon read during seeding. */
  lemma SeededStep(c: BotConfig, summons: seq<SummonPoint>, now: real, i: nat)
    requires i < |summons|
    ensures Seeded(c, summons[..i + 1], now) ==
      if summons[i].name in Group(c, "specials") then Seeded(c, summons[..i], now)[summons[i].name := now]
      else Seeded(c, summons[..i], now)
  {
    var a := summons[..i];
    var b := summons[..i + 1];
    assert forall j :: 0 <= j < i ==> b[j] == a[j];
    assert b[i] == summons[i];
    var sa := set j | 0 <= j < |a| :: a[j].name;
    var sb := set j | 0 <= j < |b| :: b[j].name;
    assert sb == sa + {summons[i].name} by {
      forall x | x in sb ensures x in sa + {summons[i].name} {
        var j :| 0 <= j < |b| && b[j].name == x;
        if j < i {
          assert a[j].name == x;
        }
      }
      forall x | x in sa ensures x in sb {
        var j :| 0 <= j < |a| && a[j].name == x;
        assert b[j].name == x;
      }
      assert b[i].name in sb;
    }
  }

  /** Updating a union updates its right-hand side. */
  lemma UnionUpdate(m: map<string, real>, a: map<string, real>, k: string, v: real)
    ensures (m + a)[k := v] == m + a[k := v]
  {
  }

  /** _mark_summon_used: `now + cooldown`, or `now` when the cooldown is
      None; an unknown summon leaves the table as it is. */
  function Marked(ready: map<string, real>, c: BotConfig, name: string, now: real): map<string, real> {
    match Get(c, "specials", name)
    case Err(_) => ready
    case Ok(cfg) => ready[name := if cfg.cooldown.None? then now else now + cfg.cooldown.value as real]
  }

  /** Marking a known summon sets its ready time to `now` plus its cooldown
      (nothing for None) and touches no other summon; an unknown one changes
      nothing. */
  lemma MarkedEffect(ready: map<string, real>, c: BotConfig, name: string, now: real, other: string)
    requires other != name
    ensures name !in Group(c, "specials") ==> Marked(ready, c, name, now) == ready
    ensures name in Group(c, "specials") ==>
      var cd := Group(c, "specials")[name].cooldown;
      ReadyAt(Marked(ready, c, name, now), name) == now + (if cd.Some? then cd.value as real else 0.0)
    ensures ReadyAt(Marked(ready, c, name, now), other) == ReadyAt(ready, other)
    ensures other in Marked(ready, c, name, now) <==> other in ready
  {
  }

  /** _is_any_summon_ready: some summon of the pattern is due by `now`. */
  predicate AnyReady(ready: map<string, real>, summons: seq<SummonPoint>, now: real) {
    exists i :: 0 <= i < |summons| && now >= ReadyAt(ready, summons[i].name)
  }

  /** A summon of the pattern that is not in the table is ready at any time
      from 0 on, so a pattern summon that specials lacks (never seeded, never
      placed) makes every readiness check succeed. */
  lemma AbsentSummonReady(ready: map<string, real>, summons: seq<SummonPoint>, now: real, i: nat)
    requires i < |summons| && summons[i].name !in ready && now >= 0.0
    ensures AnyReady(ready, summons, now)
  {
  }

  /** A summon just marked with a positive cooldown is not ready before the
      cooldown has passed. */
  lemma MarkedNotReady(ready: map<string, real>, c: BotConfig, name: string, now: real, later: real)
    requires name in Group(c, "specials")
    requires Group(c, "specials")[name].cooldown.Some?
    requires now <= later < now + Group(c, "specials")[name].cooldown.value as real
    ensures later < ReadyAt(Marked(ready, c, name, now), name)
  {
  }

  // ---------------------------------------------------------------------
  // What the bot does: go_to, the summon cycle, a sweep, a hunting pass
  // ---------------------------------------------------------------------

  /** What the bot's operations work with: the bindings, the key codes, the
      movement controller and the pattern's points. */
  datatype Ctx = Ctx(config: BotConfig, vkMap: map<string, int>, walker: Movement.Walker,
                     points: map<string, Point>)

  /** go_to: KeyError for an unknown point, else move_to_point. */
  function GoToTrip(ctx: Ctx, name: string, cursor: nat): Movement.Trip {
    if name !in ctx.points then Movement.Trip(Raise(MissingPoint(name)), cursor)
    else Movement.Approach(ctx.walker, ctx.points[name], cursor)
  }

  /** The summon cycle so far: what it did, the next position read and the
      cooldown table. */
  datatype Progress = Progress(run: Run, cursor: nat, ready: map<string, real>)

  /** A summon the cycle places: in specials, with a key bound. */
  predicate Placeable(c: BotConfig, s: SummonPoint) {
    s.name in Group(c, "specials") && Utils.Truthy(Group(c, "specials")[s.name].key)
  }

  /** Going to a summon's point, 0.2 s, pressing its key once. */
  function Placing(ctx: Ctx, s: SummonPoint, cursor: nat): Movement.Trip {
    var t := GoToTrip(ctx, s.point, cursor);
    Movement.Trip(Then(t.run, Then(Pause(0.2), Utils.PressActionRun(ctx.config, ctx.vkMap, "specials", s.name, 1, Seconds(0.0)))), t.cursor)
  }

  /** Placing a summon; it is marked used and 0.1 s follows only when the
      placing returned. */
  function Visit(ctx: Ctx, now: real, s: SummonPoint, p: Progress): Progress {
    if p.run.outcome.Fail? then p
    else
      var r := Placing(ctx, s, p.cursor);
      if r.run.outcome.Fail? then Progress(Then(p.run, r.run), r.cursor, p.ready)
      else Progress(Then(p.run, Then(r.run, Pause(0.1))), r.cursor, Marked(p.ready, ctx.config, s.name, now))
  }

  /** One iteration of the summon loop: a summon missing from specials, or
      with no key bound, is skipped. */
  function PlaceSummon(ctx: Ctx, now: real, s: SummonPoint, p: Progress): Progress {
    if Placeable(ctx.config, s) then Visit(ctx, now, s, p) else p
  }

  /** The summon loop over `summons`, in order. */
  function Placements(ctx: Ctx, now: real, summons: seq<SummonPoint>, p: Progress): Progress {
    if summons == [] then p
    else PlaceSummon(ctx, now, summons[|summons| - 1], Placements(ctx, now, summons[..|summons| - 1], p))
  }

  /** Visits to every one of `summons`, in order. */
  function Visits(ctx: Ctx, now: real, summons: seq<SummonPoint>, p: Progress): Progress {
    if summons == [] then p
    else Visit(ctx, now, summons[|summons| - 1], Visits(ctx, now, summons[..|summons| - 1], p))
  }

  /** The summons that are placed, in declared order. */
  function PlaceableOnly(c: BotConfig, summons: seq<SummonPoint>): (r: seq<SummonPoint>)
    ensures forall i :: 0 <= i < |r| ==> Placeable(c, r[i])
    ensures |r| <= |summons|
  {
    if summons == [] then []
    else
      PlaceableOnly(c, summons[..|summons| - 1]) +
      (if Placeable(c, summons[|summons| - 1]) then [summons[|summons| - 1]] else [])
  }

  /** run_summon_cycle: start_left, the summon loop, start_right; each part
      runs only when the previous one returned. */
  function SummonCycle(ctx: Ctx, now: real, summons: seq<SummonPoint>, cursor: nat, ready: map<string, real>): Progress {
    var a := GoToTrip(ctx, "start_left", cursor);
    var m := Placements(ctx, now, summons, Progress(a.run, a.cursor, ready));
    if m.run.outcome.Fail? then m
    else
      var b := GoToTrip(ctx, "start_right", m.cursor);
      Progress(Then(m.run, b.run), b.cursor, m.ready)
  }

  /** `range(n)` iterations. */
  function Iterations(n: int): nat {
    if n > 0 then n else 0
  }

  /** `"move_left" if end.x < start.x else "move_right"` */
  function SweepDirection(start: Point, end: Point): (a: string)
    ensures a == "move_left" <==> end.x < start.x
    ensures a == "move_right" <==> end.x >= start.x
  {
    if end.x < start.x then "move_left" else "move_right"
  }

  /** Two jump presses with a random interval in [0.07, 0.12]. */
  function Jumps(ctx: Ctx): Run {
    Utils.PressActionRun(ctx.config, ctx.vkMap, "movement", "jump", 2, Uniform(0.07, 0.12))
  }

  /** One iteration of the hold style: the direction held around the jumps
      and 0.10 s. */
  function HoldStyleJump(ctx: Ctx, move: string): Run {
    Utils.HoldActionRun(ctx.config, ctx.vkMap, "movement", move, Then(Jumps(ctx), Pause(0.10)))
  }

  /** One iteration of the press style: the direction held around the jumps,
      one attack press and 0.10 s. */
  function PressStyleJump(ctx: Ctx, move: string, attack: string): Run {
    Utils.HoldActionRun(ctx.config, ctx.vkMap, "movement", move,
      Then(Then(Jumps(ctx), Utils.PressActionRun(ctx.config, ctx.vkMap, "attacks", attack, 1, Seconds(0.0))), Pause(0.10)))
  }

  /** The key actions of a sweep once at its start point: "press" presses the
      attack each iteration; "hold" and every other style hold the attack
      around all iterations. */
  function SweepActions(ctx: Ctx, step: HuntingStep, move: string): Run {
    if step.style == "press" then Repeat(PressStyleJump(ctx, move, step.attack), Iterations(step.jumps))
    else Utils.HoldActionRun(ctx.config, ctx.vkMap, "attacks", step.attack,
           Repeat(HoldStyleJump(ctx, move), Iterations(step.jumps)))
  }

  /** _run_sweep: both points looked up (KeyError otherwise), a move to the
      start point, then the key actions. */
  function Sweep(ctx: Ctx, step: HuntingStep, cursor: nat): Movement.Trip {
    if step.fromPoint !in ctx.points then Movement.Trip(Raise(MissingPoint(step.fromPoint)), cursor)
    else if step.toPoint !in ctx.points then Movement.Trip(Raise(MissingPoint(step.toPoint)), cursor)
    else
      var start := ctx.points[step.fromPoint];
      var t := Movement.Approach(ctx.walker, start, cursor);
      Movement.Trip(Then(t.run, SweepActions(ctx, step, SweepDirection(start, ctx.points[step.toPoint]))), t.cursor)
  }

  /** run_hunting_loop_once over `steps`: sweeps in order, other types
      skipped, stopped by the first that raises. */
  function HuntingPass(ctx: Ctx, steps: seq<HuntingStep>, cursor: nat): Movement.Trip {
    if steps == [] then Movement.Trip(Done, cursor)
    else
      var t := HuntingPass(ctx, steps[..|steps| - 1], cursor);
      var step := steps[|steps| - 1];
      if t.run.outcome.Fail? || step.kind != "sweep" then t
      else
        var u := Sweep(ctx, step, t.cursor);
        Movement.Trip(Then(t.run, u.run), u.cursor)
  }

  /** The sweeps of a hunting loop, in order. */
  function SweepsOnly(steps: seq<HuntingStep>): (r: seq<HuntingStep>)
    ensures forall i :: 0 <= i < |r| ==> r[i].kind == "sweep"
    ensures |r| <= |steps|
  {
    if steps == [] then []
    else SweepsOnly(steps[..|steps| - 1]) + (if steps[|steps| - 1].kind == "sweep" then [steps[|steps| - 1]] else [])
  }

  // ---------------------------------------------------------------------
  // Properties of the summon cycle and of hunting
  // ---------------------------------------------------------------------

  /** Visits to `xs` and then `s`. */
  lemma VisitsSnoc(ctx: Ctx, now: real, xs: seq<SummonPoint>, s: SummonPoint, p: Progress)
    ensures Visits(ctx, now, xs + [s], p) == Visit(ctx, now, s, Visits(ctx, now, xs, p))
  {
    assert (xs + [s])[..|xs + [s]| - 1] == xs;
  }

  /** The summon loop visits exactly the summons that are in specials with a
      key bound, in the order declared, and skips every other one. */
  lemma {:induction false} PlacementsVisitPlaceable(ctx: Ctx, now: real, summons: seq<SummonPoint>, p: Progress)
    ensures Placements(ctx, now, summons, p) == Visits(ctx, now, PlaceableOnly(ctx.config, summons), p)
  {
    if summons != [] {
      var init := summons[..|summons| - 1];
      var s := summons[|summons| - 1];
      PlacementsVisitPlaceable(ctx, now, init, p);
      if Placeable(ctx.config, s) {
        VisitsSnoc(ctx, now, PlaceableOnly(ctx.config, init), s, p);
      } else {
        assert PlaceableOnly(ctx.config, summons) == PlaceableOnly(ctx.config, init) + [];
        assert PlaceableOnly(ctx.config, summons) == PlaceableOnly(ctx.config, init);
      }
    }
  }

  /** The summon loop only adds effects after what came before, and once one
      visit raised nothing further happens. */
  lemma {:induction false} PlacementsExtend(ctx: Ctx, now: real, summons: seq<SummonPoint>, p: Progress)
    ensures var m := Placements(ctx, now, summons, p);
      p.run.effects <= m.run.effects && (p.run.outcome.Fail? ==> m == p)
  {
    if summons != [] {
      var init := summons[..|summons| - 1];
      PlacementsExtend(ctx, now, init, p);
      var before := Placements(ctx, now, init, p);
      var s := summons[|summons| - 1];
      if Placeable(ctx.config, s) && before.run.outcome.Pass? {
        var r := Placing(ctx, s, before.cursor).run;
        assert before.run.effects <= before.run.effects + r.effects;
        assert before.run.effects <= before.run.effects + Then(r, Pause(0.1)).effects;
      }
    }
  }

  /** The cooldown of a summon that is never placed is left as it was. */
  lemma {:induction false} PlacementsKeepUnplaced(ctx: Ctx, now: real, summons: seq<SummonPoint>, p: Progress, name: string)
    requires forall i :: 0 <= i < |summons| && summons[i].name == name ==> !Placeable(ctx.config, summons[i])
    ensures name in Placements(ctx, now, summons, p).ready <==> name in p.ready
    ensures ReadyAt(Placements(ctx, now, summons, p).ready, name) == ReadyAt(p.ready, name)
  {
    if summons != [] {
      var init := summons[..|summons| - 1];
      assert forall i :: 0 <= i < |init| ==> init[i] == summons[i];
      PlacementsKeepUnplaced(ctx, now, init, p, name);
      var s := summons[|summons| - 1];
      if Placeable(ctx.config, s) {
        var before := Placements(ctx, now, init, p);
        MarkedEffect(before.ready, ctx.config, s.name, now, name);
      }
    }
  }

  /** The cycle goes to start_left first: if that raises, nothing else
      happens and no cooldown changes. When the whole cycle returns, its
      effects are the move to start_left, then the summon loop, then the
      move to start_right as the very last thing. */
  lemma SummonCycleOrder(ctx: Ctx, now: real, summons: seq<SummonPoint>, cursor: nat, ready: map<string, real>)
    ensures var a := GoToTrip(ctx, "start_left", cursor);
      var r := SummonCycle(ctx, now, summons, cursor, ready);
      && (a.run.outcome.Fail? ==> r == Progress(a.run, a.cursor, ready))
      && a.run.effects <= r.run.effects
      && (r.run.outcome.Pass? ==>
            var m := Placements(ctx, now, summons, Progress(a.run, a.cursor, ready));
            r.run.effects == m.run.effects + GoToTrip(ctx, "start_right", m.cursor).run.effects)
  {
    var a := GoToTrip(ctx, "start_left", cursor);
    PlacementsExtend(ctx, now, summons, Progress(a.run, a.cursor, ready));
  }

  /** Steps `xs` and then `s`. */
  lemma SweepsSnoc(xs: seq<HuntingStep>, s: HuntingStep)
    ensures (xs + [s])[..|xs + [s]| - 1] == xs && (xs + [s])[|xs + [s]| - 1] == s
  {
  }

  /** A hunting pass over steps `xs` and then `s`. */
  lemma HuntingPassSnoc(ctx: Ctx, xs: seq<HuntingStep>, s: HuntingStep, cursor: nat)
    ensures HuntingPass(ctx, xs + [s], cursor) ==
      var t := HuntingPass(ctx, xs, cursor);
      if t.run.outcome.Fail? || s.kind != "sweep" then t
      else Movement.Trip(Then(t.run, Sweep(ctx, s, t.cursor).run), Sweep(ctx, s, t.cursor).cursor)
  {
    SweepsSnoc(xs, s);
  }

  /** A hunting pass runs exactly the sweeps of the loop, in order; steps of
      any other type are skipped. */
  lemma {:induction false} HuntingRunsSweepsOnly(ctx: Ctx, steps: seq<HuntingStep>, cursor: nat)
    ensures HuntingPass(ctx, steps, cursor) == HuntingPass(ctx, SweepsOnly(steps), cursor)
  {
    if steps != [] {
      var init := steps[..|steps| - 1];
      var s := steps[|steps| - 1];
      HuntingRunsSweepsOnly(ctx, init, cursor);
      if s.kind == "sweep" {
        HuntingPassSnoc(ctx, SweepsOnly(init), s, cursor);
      } else {
        assert SweepsOnly(steps) == SweepsOnly(init) + [];
        assert SweepsOnly(steps) == SweepsOnly(init);
      }
    }
  }

  /** The key events of two presses of one key. */
  function TwoPresses(vk: int): seq<Effect> {
    [KeyDown(vk), KeyUp(vk), KeyDown(vk), KeyUp(vk)]
  }

  /** With jump bound to a key that resolves, the jumps return and press it
      twice. */
  lemma JumpsKeys(ctx: Ctx, kj: string, vj: int)
    requires Utils.HoldKey(ctx.config, "movement", "jump") == Ok(kj) && Input.Vk(ctx.vkMap, kj) == Ok(vj)
    ensures Jumps(ctx).outcome == Pass && Input.KeyEvents(Jumps(ctx).effects) == TwoPresses(vj)
  {
    assert Jumps(ctx) == Input.PressRun(ctx.vkMap, kj, 2, Uniform(0.07, 0.12));
    Input.PressEmitsPairs(ctx.vkMap, kj, 2, Uniform(0.07, 0.12));
    var pair := [KeyDown(vj), KeyUp(vj)];
    assert Copies(pair, 1) == [] + pair;
    assert Copies(pair, 2) == Copies(pair, 1) + pair;
    assert Copies(pair, 2) == TwoPresses(vj);
  }

  /** One hold-style iteration: the direction goes down, jump is pressed
      twice, the direction comes up. */
  lemma HoldStyleKeys(ctx: Ctx, move: string, km: string, vm: int, kj: string, vj: int)
    requires Utils.HoldKey(ctx.config, "movement", move) == Ok(km) && Input.Vk(ctx.vkMap, km) == Ok(vm)
    requires Utils.HoldKey(ctx.config, "movement", "jump") == Ok(kj) && Input.Vk(ctx.vkMap, kj) == Ok(vj)
    ensures HoldStyleJump(ctx, move).outcome == Pass
    ensures Input.KeyEvents(HoldStyleJump(ctx, move).effects) == [KeyDown(vm)] + TwoPresses(vj) + [KeyUp(vm)]
  {
    JumpsKeys(ctx, kj, vj);
    var body := Then(Jumps(ctx), Pause(0.10));
    assert body.effects == Jumps(ctx).effects + [Sleep(Seconds(0.10))];
    Input.KeyEventsSleepTail(Jumps(ctx).effects, Seconds(0.10));
    assert HoldStyleJump(ctx, move) == Input.HoldRun(ctx.vkMap, km, body);
    Input.KeyEventsBracket(KeyDown(vm), body.effects, KeyUp(vm));
  }

  /** One press-style iteration: the direction goes down, jump is pressed
      twice, the attack once, the direction comes up. */
  lemma PressStyleKeys(ctx: Ctx, move: string, km: string, vm: int, kj: string, vj: int,
                       attack: string, ka: string, va: int)
    requires Utils.HoldKey(ctx.config, "movement", move) == Ok(km) && Input.Vk(ctx.vkMap, km) == Ok(vm)
    requires Utils.HoldKey(ctx.config, "movement", "jump") == Ok(kj) && Input.Vk(ctx.vkMap, kj) == Ok(vj)
    requires Utils.HoldKey(ctx.config, "attacks", attack) == Ok(ka) && Input.Vk(ctx.vkMap, ka) == Ok(va)
    ensures PressStyleJump(ctx, move, attack).outcome == Pass
    ensures Input.KeyEvents(PressStyleJump(ctx, move, attack).effects) ==
      [KeyDown(vm)] + TwoPresses(vj) + [KeyDown(va), KeyUp(va)] + [KeyUp(vm)]
  {
    JumpsKeys(ctx, kj, vj);
    var hit := Utils.PressActionRun(ctx.config, ctx.vkMap, "attacks", attack, 1, Seconds(0.0));
    assert hit == Input.PressRun(ctx.vkMap, ka, 1, Seconds(0.0));
    Input.PressEmitsPairs(ctx.vkMap, ka, 1, Seconds(0.0));
    assert Copies([KeyDown(va), KeyUp(va)], 1) == [KeyDown(va), KeyUp(va)];
    var both := Then(Jumps(ctx), hit);
    assert both.effects == Jumps(ctx).effects + hit.effects;
    Input.KeyEventsAppend(Jumps(ctx).effects, hit.effects);
    var body := Then(both, Pause(0.10));
    assert body.effects == both.effects + [Sleep(Seconds(0.10))];
    Input.KeyEventsSleepTail(both.effects, Seconds(0.10));
    assert PressStyleJump(ctx, move, attack) == Input.HoldRun(ctx.vkMap, km, body);
    Input.KeyEventsBracket(KeyDown(vm), body.effects, KeyUp(vm));
  }

  /** With every action bound to a key that resolves, a sweep's key actions
      return and hold the direction exactly `jumps` times (none for a
      non-positive count), each time around two jump presses; "press" adds
      one attack press inside each hold, while "hold" and every other style
      hold the attack around all of them. */
  lemma SweepKeys(ctx: Ctx, step: HuntingStep, move: string, km: string, vm: int, kj: string, vj: int,
                  ka: string, va: int)
    requires Utils.HoldKey(ctx.config, "movement", move) == Ok(km) && Input.Vk(ctx.vkMap, km) == Ok(vm)
    requires Utils.HoldKey(ctx.config, "movement", "jump") == Ok(kj) && Input.Vk(ctx.vkMap, kj) == Ok(vj)
    requires Utils.HoldKey(ctx.config, "attacks", step.attack) == Ok(ka) && Input.Vk(ctx.vkMap, ka) == Ok(va)
    ensures SweepActions(ctx, step, move).outcome == Pass
    ensures step.style == "press" ==>
      Input.KeyEvents(SweepActions(ctx, step, move).effects) ==
        Copies([KeyDown(vm)] + TwoPresses(vj) + [KeyDown(va), KeyUp(va)] + [KeyUp(vm)], Iterations(step.jumps))
    ensures step.style != "press" ==>
      Input.KeyEvents(SweepActions(ctx, step, move).effects) ==
        [KeyDown(va)] + Copies([KeyDown(vm)] + TwoPresses(vj) + [KeyUp(vm)], Iterations(step.jumps)) + [KeyUp(va)]
  {
    var n := Iterations(step.jumps);
    if step.style == "press" {
      var unit := PressStyleJump(ctx, move, step.attack);
      PressStyleKeys(ctx, move, km, vm, kj, vj, step.attack, ka, va);
      RepeatPassing(unit, n);
      Input.KeyEventsCopies(unit.effects, n);
    } else {
      var unit := HoldStyleJump(ctx, move);
      HoldStyleKeys(ctx, move, km, vm, kj, vj);
      RepeatPassing(unit, n);
      Input.KeyEventsCopies(unit.effects, n);
      var loop := Repeat(unit, n);
      assert SweepActions(ctx, step, move) == Input.HoldRun(ctx.vkMap, ka, loop);
      Input.KeyEventsBracket(KeyDown(va), loop.effects, KeyUp(va));
    }
  }

  /** The styles differ when the attack is not bound: "hold" (and any other
      style but "press") raises before any iteration, even with no jumps,
      while "press" with no jumps does nothing at all. */
  lemma SweepUnboundAttack(ctx: Ctx, step: HuntingStep, move: string)
    requires Utils.HoldKey(ctx.config, "attacks", step.attack).Err?
    ensures step.style != "press" ==>
      SweepActions(ctx, step, move) == Raise(Utils.HoldKey(ctx.config, "attacks", step.attack).error)
    ensures step.style == "press" && step.jumps <= 0 ==> SweepActions(ctx, step, move) == Done
  {
  }

  /** A visit after earlier effects: those effects, then the visit on its
      own. */
  lemma VisitAfter(ctx: Ctx, now: real, s: SummonPoint, p: Progress)
    requires p.run.outcome.Pass?
    ensures var v := Visit(ctx, now, s, Progress(Done, p.cursor, p.ready));
      Visit(ctx, now, s, p) == Progress(Then(p.run, v.run), v.cursor, v.ready)
  {
    var r := Placing(ctx, s, p.cursor).run;
    assert Then(Done, r) == r;
    assert Then(Done, Then(r, Pause(0.1))) == Then(r, Pause(0.1));
  }

  /** Once the summon loop has raised, the remaining summons change
      nothing. */
  lemma {:induction false} PlacementsSticks(ctx: Ctx, now: real, summons: seq<SummonPoint>, i: nat, p: Progress)
    requires i <= |summons|
    requires Placements(ctx, now, summons[..i], p).run.outcome.Fail?
    ensures Placements(ctx, now, summons, p) == Placements(ctx, now, summons[..i], p)
  {
    if i < |summons| {
      var init := summons[..|summons| - 1];
      assert init[..i] == summons[..i];
      PlacementsSticks(ctx, now, init, i, p);
    } else {
      assert summons[..i] == summons;
    }
  }

  /** Once a hunting pass has raised, the remaining steps change nothing. */
  lemma {:induction false} HuntingPassSticks(ctx: Ctx, steps: seq<HuntingStep>, i: nat, cursor: nat)
    requires i <= |steps|
    requires HuntingPass(ctx, steps[..i], cursor).run.outcome.Fail?
    ensures HuntingPass(ctx, steps, cursor) == HuntingPass(ctx, steps[..i], cursor)
  {
    if i < |steps| {
      var init := steps[..|steps| - 1];
      assert init[..i] == steps[..i];
      HuntingPassSticks(ctx, init, i, cursor);
    } else {
      assert steps[..i] == steps;
    }
  }

  // ---------------------------------------------------------------------
  // The main loop
  // ---------------------------------------------------------------------

  /** The part of the bot the main loop changes: the state, the rune flag,
      the cooldown table and the next position read. */
  datatype Snapshot = Snapshot(state: BotState, rune: bool, ready: map<string, real>, cursor: nat)

  /** One pass of the main loop and the snapshot after it. */
  datatype Stepped = Stepped(run: Run, after: Snapshot)

  /** One pass of `while not self.stopped` at time `now`; `flagSet` is a
      set_rune_flag that lands while a hunting pass runs, if any. A set that
      lands during any other pass is carried as the `flagSet` of the next
      hunting pass instead; that is the same to the bot, because only the
      hunting pass reads the flag. The pass ends with 0.01 s unless it
      raised. */
  function LoopBody(ctx: Ctx, pattern: PatternConfig, now: real, flagSet: Option<bool>, b: Snapshot): Stepped {
    match b.state
    case Initializing =>
      Stepped(Then(Pause(2.5), Pause(0.01)), b.(state := Placement))
    case Placement =>
      var r := SummonCycle(ctx, now, pattern.summons, b.cursor, b.ready);
      if r.run.outcome.Fail? then Stepped(r.run, b.(ready := r.ready, cursor := r.cursor))
      else Stepped(Then(r.run, Pause(0.01)), Snapshot(Hunting, b.rune, r.ready, r.cursor))
    case Hunting =>
      var t := HuntingPass(ctx, pattern.huntingLoop, b.cursor);
      var rune := if flagSet.Some? then flagSet.value else b.rune;
      if t.run.outcome.Fail? then Stepped(t.run, b.(rune := rune, cursor := t.cursor))
      else
        var next := if rune then Rune else if AnyReady(b.ready, pattern.summons, now) then Placement else Hunting;
        Stepped(Then(t.run, Pause(0.01)), Snapshot(next, rune, b.ready, t.cursor))
    case Rune =>
      Stepped(Then(Pause(2.0), Pause(0.01)), Snapshot(Initializing, false, b.ready, b.cursor))
    case Unknown(_) =>
      Stepped(Pause(0.01), b.(state := Initializing))
  }

  /** A pass that returns follows the transition rule, with the rune flag
      as re-read after the hunting pass, so a rune seen then wins over a
      ready summon; a pass that raises keeps the state. Only clearing a rune
      lowers the flag. */
  lemma LoopBodyFollowsRule(ctx: Ctx, pattern: PatternConfig, now: real, flagSet: Option<bool>, b: Snapshot)
    ensures var st := LoopBody(ctx, pattern, now, flagSet, b);
      && (st.run.outcome.Pass? ==>
            st.after.state == NextState(b.state, st.after.rune, AnyReady(b.ready, pattern.summons, now)))
      && (st.run.outcome.Fail? ==> st.after.state == b.state)
      && (b.state == Hunting && flagSet == Some(true) && st.run.outcome.Pass? ==> st.after.state == Rune)
      && (b.state != Rune && st.after.rune != b.rune ==> b.state == Hunting && flagSet == Some(st.after.rune))
  {
  }

  /** What stop() and the clock look like from one pass: the time, a
      set_rune_flag during it, and whether stop() comes before the next
      check of the loop condition. */
  datatype Tick = Tick(now: real, flagSet: Option<bool>, stopAfter: bool)

  /** A run of the main loop so far. */
  datatype Session = Session(run: Run, snap: Snapshot, stopped: bool)

  /** `run` over the ticks: a pass per tick while not stopped, ended by the
      first pass that raises. */
  function Sessions(ctx: Ctx, pattern: PatternConfig, s0: Session, ticks: seq<Tick>): Session {
    if ticks == [] then s0
    else
      var s := Sessions(ctx, pattern, s0, ticks[..|ticks| - 1]);
      var tick := ticks[|ticks| - 1];
      if s.run.outcome.Fail? || s.stopped then s
      else
        var st := LoopBody(ctx, pattern, tick.now, tick.flagSet, s.snap);
        Session(Then(s.run, st.run), st.after, s.stopped || tick.stopAfter)
  }

  /** Without a rune flag raised from outside, the bot never enters the RUNE
      state nor raises its flag. */
  lemma {:induction false} NoRuneWithoutFlag(ctx: Ctx, pattern: PatternConfig, s0: Session, ticks: seq<Tick>)
    requires s0.snap.state != Rune && !s0.snap.rune
    requires forall i :: 0 <= i < |ticks| ==> ticks[i].flagSet != Some(true)
    ensures Sessions(ctx, pattern, s0, ticks).snap.state != Rune
    ensures !Sessions(ctx, pattern, s0, ticks).snap.rune
  {
    if ticks != [] {
      var init := ticks[..|ticks| - 1];
      assert forall i :: 0 <= i < |init| ==> init[i] == ticks[i];
      NoRuneWithoutFlag(ctx, pattern, s0, init);
    }
  }

  /** Once stopped or raised, a session stays as it is. */
  lemma {:induction false} SessionsSticks(ctx: Ctx, pattern: PatternConfig, s0: Session, ticks: seq<Tick>, i: nat)
    requires i <= |ticks|
    requires var s := Sessions(ctx, pattern, s0, ticks[..i]); s.run.outcome.Fail? || s.stopped
    ensures Sessions(ctx, pattern, s0, ticks) == Sessions(ctx, pattern, s0, ticks[..i])
  {
    if i < |ticks| {
      var init := ticks[..|ticks| - 1];
      assert init[..i] == ticks[..i];
      SessionsSticks(ctx, pattern, s0, init, i);
    } else {
      assert ticks[..i] == ticks;
    }
  }

  // ---------------------------------------------------------------------
  // The bot
  // ---------------------------------------------------------------------

  class AutoBot {
    const utils: Utils.BotUtils
    const mover: Movement.MovementController
    const pattern: PatternConfig
    /** Summon name to next ready time. */
    var nextReady: map<string, real>
    var runeFlag: bool
    var state: BotState
    var stopped: bool
    /** What the bot's operations work with, fixed at construction. */
    ghost const ctx: Ctx

    /** The controller moves with the shared bindings, which are the ones
        `ctx` records. */
    ghost predicate Valid()
      reads utils
    {
      && mover.utils == utils && mover.Linked() && mover.Built()
      && ctx == Ctx(utils.config, utils.input.vkMap, mover.WalkerOf(), pattern.points)
    }

    ghost function SnapOf(): Snapshot
      reads this, mover
    {
      Snapshot(state, runeFlag, nextReady, mover.cursor)
    }

    /** The bot over loaded bindings and pattern: the summons found in
        specials ready at once, no rune, INITIALIZING, stopped. The movement
        controller is built with its default tolerances, as AutoBot passes
        none. */
    constructor (utils: Utils.BotUtils, pattern: PatternConfig, position: Movement.PositionArg,
                 speed: real, offset: real, now: real)
      ensures this.utils == utils && this.pattern == pattern && fresh(mover)
      ensures Valid() && mover.cursor == 0 && mover.feed == Movement.FeedOf(position)
      ensures mover.tuning == Movement.Tuning(Movement.DefaultTolerance, Movement.DefaultTolerance, speed, offset)
      ensures nextReady == Seeded(utils.config, pattern.summons, now)
      ensures !runeFlag && state == Initializing && stopped
    {
      this.utils := utils;
      this.pattern := pattern;
      var m := new Movement.MovementController(utils, position, Movement.DefaultTolerance, Movement.DefaultTolerance, speed, offset);
      mover := m;
      ctx := Ctx(utils.config, utils.input.vkMap, m.WalkerOf(), pattern.points);
      nextReady := map[];
      runeFlag := false;
      state := Initializing;
      stopped := true;
      new;
      InitSummonCooldowns(now);
      assert map[] + Seeded(utils.config, pattern.summons, now) == Seeded(utils.config, pattern.summons, now);
    }

    /** start: a no-op when running; otherwise clear `stopped` and wait the
        buffer time. */
    method Start()
      modifies this, utils.input.log
      ensures !old(stopped) ==> stopped == old(stopped) && utils.input.log.entries == old(utils.input.log.entries)
      ensures old(stopped) ==> !stopped && utils.input.log.entries == old(utils.input.log.entries) + Pause(0.1).effects
      ensures nextReady == old(nextReady) && runeFlag == old(runeFlag) && state == old(state)
    {
      if !stopped {
        return;
      }
      stopped := false;
      utils.input.log.Wait(0.1);
    }

    method Stop()
      modifies this
      ensures stopped && nextReady == old(nextReady) && runeFlag == old(runeFlag) && state == old(state)
    {
      stopped := true;
    }

    method SetRuneFlag(value: bool)
      modifies this
      ensures runeFlag == value && nextReady == old(nextReady) && stopped == old(stopped) && state == old(state)
    {
      runeFlag := value;
    }

    method TransitionTo(next: BotState)
      modifies this
      ensures state == next && nextReady == old(nextReady) && stopped == old(stopped) && runeFlag == old(runeFlag)
    {
      state := next;
    }

    /** _init_summon_cooldowns. */
    method InitSummonCooldowns(now: real)
      modifies this
      ensures nextReady == old(nextReady) + Seeded(utils.config, pattern.summons, now)
      ensures stopped == old(stopped) && runeFlag == old(runeFlag) && state == old(state)
    {
      var summons := pattern.summons;
      ghost var ready0 := nextReady;
      for i := 0 to |summons|
        invariant nextReady == ready0 + Seeded(utils.config, summons[..i], now)
        invariant stopped == old(stopped) && runeFlag == old(runeFlag) && state == old(state)
      {
        SeededStep(utils.config, summons, now, i);
        var found := Get(utils.config, "specials", summons[i].name);
        if found.Ok? {
          UnionUpdate(ready0, Seeded(utils.config, summons[..i], now), summons[i].name, now);
          nextReady := nextReady[summons[i].name := now];
        }
      }
      assert summons[..|summons|] == summons;
    }

    /** _mark_summon_used. */
    method MarkSummonUsed(name: string, now: real)
      modifies this
      ensures nextReady == Marked(old(nextReady), utils.config, name, now)
      ensures stopped == old(stopped) && runeFlag == old(runeFlag) && state == old(state)
    {
      var found := Get(utils.config, "specials", name);
      if found.Err? {
        return;
      }
      var cooldown := found.value.cooldown;
      if cooldown.None? {
        nextReady := nextReady[name := now];
      } else {
        nextReady := nextReady[name := now + cooldown.value as real];
      }
    }

    /** _is_any_summon_ready. */
    method IsAnySummonReady(now: real) returns (ready: bool)
      ensures ready == AnyReady(nextReady, pattern.summons, now)
    {
      var summons := pattern.summons;
      for i := 0 to |summons|
        invariant forall j :: 0 <= j < i ==> now < ReadyAt(nextReady, summons[j].name)
      {
        var readyAt := if summons[i].name in nextReady then nextReady[summons[i].name] else 0.0;
        if now >= readyAt {
          return true;
        }
      }
      return false;
    }

    /** go_to. */
    method GoTo(name: string) returns (o: Outcome)
      requires Valid()
      modifies mover, utils.input.log
      ensures var t := GoToTrip(ctx, name, old(mover.cursor));
        utils.input.log.entries == old(utils.input.log.entries) + t.run.effects &&
        o == t.run.outcome && mover.cursor == t.cursor
    {
      if name !in pattern.points {
        return Fail(MissingPoint(name));
      }
      o := mover.MoveToPoint(pattern.points[name]);
    }
  
    /** The body of the summon loop for a summon that is placed. */
    method VisitSummon(s: SummonPoint, now: real) returns (o: Outcome)
      requires Valid()
      modifies this, mover, utils.input.log
      ensures var v := Visit(ctx, now, s, Progress(Done, old(mover.cursor), old(nextReady)));
        utils.input.log.entries == old(utils.input.log.entries) + v.run.effects &&
        o == v.run.outcome && mover.cursor == v.cursor && nextReady == v.ready
      ensures stopped == old(stopped) && runeFlag == old(runeFlag) && state == old(state)
    {
      ghost var r := Placing(ctx, s, mover.cursor);
      o := PlaceAt(s);
      assert Then(Done, r.run) == r.run;
      if o.Fail? {
        return;
      }
      MarkSummonUsed(s.name, now);
      utils.input.log.Wait(0.1);
      assert Then(Done, Then(r.run, Pause(0.1))) == Then(r.run, Pause(0.1));
    }

    /** go_to the summon's point, 0.2 s, press its key. */
    method PlaceAt(s: SummonPoint) returns (o: Outcome)
      requires Valid()
      modifies mover, utils.input.log
      ensures var r := Placing(ctx, s, old(mover.cursor));
        utils.input.log.entries == old(utils.input.log.entries) + r.run.effects &&
        o == r.run.outcome && mover.cursor == r.cursor
    {
      var log := utils.input.log;
      ghost var log0 := log.entries;
      ghost var t := GoToTrip(ctx, s.point, mover.cursor);
      o := GoTo(s.point);
      if o.Fail? {
        return;
      }
      log.Wait(0.2);
      ghost var mid := log.entries;
      o := utils.PressAction("specials", s.name, 1, Seconds(0.0));
      ghost var press := Utils.PressActionRun(ctx.config, ctx.vkMap, "specials", s.name, 1, Seconds(0.0));
      AppendAssoc(log0 + t.run.effects, Pause(0.2).effects, press.effects);
      AppendAssoc(log0, t.run.effects, Pause(0.2).effects + press.effects);
    }

    /** run_summon_cycle. */
    method RunSummonCycle(now: real) returns (o: Outcome)
      requires Valid()
      modifies this, mover, utils.input.log
      ensures var r := SummonCycle(ctx, now, pattern.summons, old(mover.cursor), old(nextReady));
        utils.input.log.entries == old(utils.input.log.entries) + r.run.effects &&
        o == r.run.outcome && mover.cursor == r.cursor && nextReady == r.ready
      ensures stopped == old(stopped) && runeFlag == old(runeFlag) && state == old(state)
    {
      ghost var log0 := utils.input.log.entries;
      ghost var a := GoToTrip(ctx, "start_left", mover.cursor);
      ghost var p := Progress(a.run, a.cursor, nextReady);
      o := GoTo("start_left");
      if o.Fail? {
        assert pattern.summons[..0] == [];
        PlacementsSticks(ctx, now, pattern.summons, 0, p);
        return;
      }
      o := PlaceSummons(now, log0, p);
      if o.Fail? {
        return;
      }
      ghost var m := Placements(ctx, now, pattern.summons, p);
      ghost var b := GoToTrip(ctx, "start_right", m.cursor);
      o := GoTo("start_right");
      AppendAssoc(log0, m.run.effects, b.run.effects);
    }

    /** The summon loop of run_summon_cycle, after start_left. */
    method PlaceSummons(now: real, ghost log0: seq<Effect>, ghost p: Progress) returns (o: Outcome)
      requires Valid()
      requires utils.input.log.entries == log0 + p.run.effects && p.run.outcome == Pass
      requires mover.cursor == p.cursor && nextReady == p.ready
      modifies this, mover, utils.input.log
      ensures var m := Placements(ctx, now, pattern.summons, p);
        utils.input.log.entries == log0 + m.run.effects &&
        o == m.run.outcome && mover.cursor == m.cursor && nextReady == m.ready
      ensures stopped == old(stopped) && runeFlag == old(runeFlag) && state == old(state)
    {
      var summons := pattern.summons;
      var log := utils.input.log;
      assert summons[..0] == [];
      ghost var m := p;
      o := Pass;
      for i := 0 to |summons|
        invariant m == Placements(ctx, now, summons[..i], p)
        invariant log.entries == log0 + m.run.effects && o == m.run.outcome
        invariant mover.cursor == m.cursor && nextReady == m.ready
        invariant stopped == old(stopped) && runeFlag == old(runeFlag) && state == old(state)
      {
        if o.Fail? {
          PlacementsSticks(ctx, now, summons, i, p);
          return;
        }
        var sp := summons[i];
        assert summons[..i + 1][..i] == summons[..i];
        var found := Get(utils.config, "specials", sp.name);
        if found.Ok? && found.value.key.Some? && found.value.key.value != "" {
          o := VisitSummon(sp, now);
          VisitAfter(ctx, now, sp, m);
          AppendAssoc(log0, m.run.effects, Visit(ctx, now, sp, Progress(Done, m.cursor, m.ready)).run.effects);
          m := Visit(ctx, now, sp, m);
        }
      }
      assert summons[..|summons|] == summons;
    }
  
    /** Two jumps and 0.10 s: the body of a hold-style iteration. */
    method JumpsThenPause() returns (o: Outcome)
      requires Valid()
      modifies utils.input.log
      ensures utils.input.log.entries == old(utils.input.log.entries) + Then(Jumps(ctx), Pause(0.10)).effects
      ensures o == Then(Jumps(ctx), Pause(0.10)).outcome
    {
      o := utils.PressAction("movement", "jump", 2, Uniform(0.07, 0.12));
      if o.Pass? {
        utils.input.log.Wait(0.10);
      }
    }

    /** Two jumps, one attack press and 0.10 s: the body of a press-style
        iteration. */
    method JumpsAttackThenPause(attack: string) returns (o: Outcome)
      requires Valid()
      modifies utils.input.log
      ensures var r := Then(Then(Jumps(ctx), Utils.PressActionRun(ctx.config, ctx.vkMap, "attacks", attack, 1, Seconds(0.0))), Pause(0.10));
        utils.input.log.entries == old(utils.input.log.entries) + r.effects && o == r.outcome
    {
      ghost var log0 := utils.input.log.entries;
      ghost var jumps := Jumps(ctx);
      o := utils.PressAction("movement", "jump", 2, Uniform(0.07, 0.12));
      if o.Fail? {
        return;
      }
      ghost var hit := Utils.PressActionRun(ctx.config, ctx.vkMap, "attacks", attack, 1, Seconds(0.0));
      o := utils.PressAction("attacks", attack, 1, Seconds(0.0));
      AppendAssoc(log0, jumps.effects, hit.effects);
      if o.Pass? {
        utils.input.log.Wait(0.10);
        AppendAssoc(log0, jumps.effects + hit.effects, Pause(0.10).effects);
      }
    }

    /** One hold-style iteration: `with hold_action("movement", move)`
        around two jumps and 0.10 s. */
    method HoldStyleIteration(move: string) returns (o: Outcome)
      requires Valid()
      modifies utils.input.log
      ensures utils.input.log.entries == old(utils.input.log.entries) + HoldStyleJump(ctx, move).effects
      ensures o == HoldStyleJump(ctx, move).outcome
    {
      var key, held := utils.HoldBegin("movement", move);
      if held.Fail? {
        return held;
      }
      o := JumpsThenPause();
      utils.HoldEnd(key);
    }

    /** One press-style iteration: `with hold_action("movement", move)`
        around two jumps, one attack press and 0.10 s. */
    method PressStyleIteration(move: string, attack: string) returns (o: Outcome)
      requires Valid()
      modifies utils.input.log
      ensures utils.input.log.entries == old(utils.input.log.entries) + PressStyleJump(ctx, move, attack).effects
      ensures o == PressStyleJump(ctx, move, attack).outcome
    {
      var key, held := utils.HoldBegin("movement", move);
      if held.Fail? {
        return held;
      }
      o := JumpsAttackThenPause(attack);
      utils.HoldEnd(key);
    }

    /** The "hold" (and default) style: the attack held around `jumps`
        hold-style iterations. */
    method HoldStyleSweep(move: string, attack: string, jumps: int) returns (o: Outcome)
      requires Valid()
      modifies utils.input.log
      ensures var r := Utils.HoldActionRun(ctx.config, ctx.vkMap, "attacks", attack,
                         Repeat(HoldStyleJump(ctx, move), Iterations(jumps)));
        utils.input.log.entries == old(utils.input.log.entries) + r.effects && o == r.outcome
    {
      var key, held := utils.HoldBegin("attacks", attack);
      if held.Fail? {
        return held;
      }
      o := HoldStyleLoop(move, jumps);
      utils.HoldEnd(key);
    }

    /** `jumps` hold-style iterations. */
    method HoldStyleLoop(move: string, jumps: int) returns (o: Outcome)
      requires Valid()
      modifies utils.input.log
      ensures var r := Repeat(HoldStyleJump(ctx, move), Iterations(jumps));
        utils.input.log.entries == old(utils.input.log.entries) + r.effects && o == r.outcome
    {
      var log := utils.input.log;
      ghost var log0 := log.entries;
      ghost var unit := HoldStyleJump(ctx, move);
      var n := Iterations(jumps);
      o := Pass;
      for i := 0 to n
        invariant log.entries == log0 + Repeat(unit, i).effects
        invariant o == Pass && Repeat(unit, i).outcome == Pass
      {
        o := HoldStyleIteration(move);
        AppendAssoc(log0, Repeat(unit, i).effects, unit.effects);
        if o.Fail? {
          RepeatFailSticks(unit, i + 1, n);
          return;
        }
      }
    }

    /** The "press" style: `jumps` press-style iterations. */
    method PressStyleSweep(move: string, attack: string, jumps: int) returns (o: Outcome)
      requires Valid()
      modifies utils.input.log
      ensures var r := Repeat(PressStyleJump(ctx, move, attack), Iterations(jumps));
        utils.input.log.entries == old(utils.input.log.entries) + r.effects && o == r.outcome
    {
      var log := utils.input.log;
      ghost var log0 := log.entries;
      ghost var unit := PressStyleJump(ctx, move, attack);
      var n := Iterations(jumps);
      o := Pass;
      for i := 0 to n
        invariant log.entries == log0 + Repeat(unit, i).effects
        invariant o == Pass && Repeat(unit, i).outcome == Pass
      {
        o := PressStyleIteration(move, attack);
        AppendAssoc(log0, Repeat(unit, i).effects, unit.effects);
        if o.Fail? {
          RepeatFailSticks(unit, i + 1, n);
          return;
        }
      }
    }

    /** _run_sweep. */
    method RunSweep(step: HuntingStep) returns (o: Outcome)
      requires Valid()
      modifies mover, utils.input.log
      ensures var t := Sweep(ctx, step, old(mover.cursor));
        utils.input.log.entries == old(utils.input.log.entries) + t.run.effects &&
        o == t.run.outcome && mover.cursor == t.cursor
    {
      if step.fromPoint !in pattern.points {
        return Fail(MissingPoint(step.fromPoint));
      }
      if step.toPoint !in pattern.points {
        return Fail(MissingPoint(step.toPoint));
      }
      var start := pattern.points[step.fromPoint];
      var end := pattern.points[step.toPoint];
      var log := utils.input.log;
      ghost var log0 := log.entries;
      ghost var t := Movement.Approach(mover.WalkerOf(), start, mover.cursor);
      o := mover.MoveToPoint(start);
      if o.Fail? {
        return;
      }
      var move := SweepDirection(start, end);
      ghost var mid := log.entries;
      if step.style == "press" {
        o := PressStyleSweep(move, step.attack, step.jumps);
      } else {
        o := HoldStyleSweep(move, step.attack, step.jumps);
      }
      AppendAssoc(log0, t.run.effects, SweepActions(ctx, step, move).effects);
    }

    /** run_hunting_loop_once. */
    method RunHuntingLoopOnce() returns (o: Outcome)
      requires Valid()
      modifies mover, utils.input.log
      ensures var t := HuntingPass(ctx, pattern.huntingLoop, old(mover.cursor));
        utils.input.log.entries == old(utils.input.log.entries) + t.run.effects &&
        o == t.run.outcome && mover.cursor == t.cursor
    {
      var steps := pattern.huntingLoop;
      var log := utils.input.log;
      ghost var log0 := log.entries;
      ghost var c0 := mover.cursor;
      o := Pass;
      for i := 0 to |steps|
        invariant HuntingPass(ctx, steps[..i], c0).run.outcome == Pass && o == Pass
        invariant log.entries == log0 + HuntingPass(ctx, steps[..i], c0).run.effects
        invariant mover.cursor == HuntingPass(ctx, steps[..i], c0).cursor
      {
        ghost var t := HuntingPass(ctx, steps[..i], c0);
        HuntingPassSnoc(ctx, steps[..i], steps[i], c0);
        assert steps[..i + 1] == steps[..i] + [steps[i]];
        if steps[i].kind == "sweep" {
          o := RunSweep(steps[i]);
          AppendAssoc(log0, t.run.effects, Sweep(ctx, steps[i], t.cursor).run.effects);
          if o.Fail? {
            HuntingPassSticks(ctx, steps, i + 1, c0);
            return;
          }
        }
      }
      assert steps[..|steps|] == steps;
    }
  
    /** _clear_rune: 2.0 s of work, then the flag is lowered. */
    method ClearRune()
      modifies this, utils.input.log
      ensures utils.input.log.entries == old(utils.input.log.entries) + Pause(2.0).effects
      ensures !runeFlag && nextReady == old(nextReady) && stopped == old(stopped) && state == old(state)
    {
      utils.input.log.Wait(2.0);
      runeFlag := false;
    }

    /** One pass of the main loop at `tick`. */
    method LoopStep(tick: Tick) returns (o: Outcome)
      requires Valid()
      modifies this, mover, utils.input.log
      ensures var st := LoopBody(ctx, pattern, tick.now, tick.flagSet, old(SnapOf()));
        utils.input.log.entries == old(utils.input.log.entries) + st.run.effects &&
        o == st.run.outcome && SnapOf() == st.after
      ensures stopped == old(stopped)
    {
      var log := utils.input.log;
      ghost var log0 := log.entries;
      ghost var body: Run;
      match state {
      case Initializing =>
        log.Wait(2.5);
        TransitionTo(Placement);
        o := Pass;
        body := Pause(2.5);
      case Placement =>
        body := SummonCycle(ctx, tick.now, pattern.summons, mover.cursor, nextReady).run;
        o := RunSummonCycle(tick.now);
        if o.Fail? {
          return;
        }
        TransitionTo(Hunting);
      case Hunting =>
        body := HuntingPass(ctx, pattern.huntingLoop, mover.cursor).run;
        o := RunHuntingLoopOnce();
        if tick.flagSet.Some? {
          SetRuneFlag(tick.flagSet.value);
        }
        if o.Fail? {
          return;
        }
        var rune := runeFlag;
        if rune {
          TransitionTo(Rune);
        } else {
          var ready := IsAnySummonReady(tick.now);
          if ready {
            TransitionTo(Placement);
          }
        }
      case Rune =>
        ClearRune();
        TransitionTo(Initializing);
        o := Pass;
        body := Pause(2.0);
      case Unknown(_) =>
        TransitionTo(Initializing);
        o := Pass;
        body := Done;
      }
      log.Wait(0.01);
      AppendAssoc(log0, body.effects, Pause(0.01).effects);
    }

    /** run: passes of the state machine, one per tick, until stop() has
        been called or a pass raises. */
    method RunLoop(ticks: seq<Tick>) returns (o: Outcome)
      requires Valid()
      modifies this, mover, utils.input.log
      ensures var s := Sessions(ctx, pattern, Session(Done, old(SnapOf()), old(stopped)), ticks);
        utils.input.log.entries == old(utils.input.log.entries) + s.run.effects &&
        o == s.run.outcome && SnapOf() == s.snap && stopped == s.stopped
    {
      ghost var s0 := Session(Done, SnapOf(), stopped);
      ghost var log0 := utils.input.log.entries;
      o := Pass;
      var i := 0;
      while i < |ticks| && !stopped
        invariant 0 <= i <= |ticks|
        invariant Valid()
        invariant var s := Sessions(ctx, pattern, s0, ticks[..i]);
          utils.input.log.entries == log0 + s.run.effects &&
          o == s.run.outcome && o.Pass? && SnapOf() == s.snap && stopped == s.stopped
      {
        ghost var s := Sessions(ctx, pattern, s0, ticks[..i]);
        ghost var st := LoopBody(ctx, pattern, ticks[i].now, ticks[i].flagSet, s.snap);
        assert ticks[..i + 1][..i] == ticks[..i];
        o := LoopStep(ticks[i]);
        if ticks[i].stopAfter {
          Stop();
        }
        AppendAssoc(log0, s.run.effects, st.run.effects);
        i := i + 1;
        if o.Fail? {
          SessionsSticks(ctx, pattern, s0, ticks, i);
          return;
        }
      }
      if i < |ticks| {
        SessionsSticks(ctx, pattern, s0, ticks, i);
      } else {
        assert ticks[..i] == ticks;
      }
    }
  }
}
