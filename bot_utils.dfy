/** Loading the action bindings and the pattern from already-parsed documents,
    and dispatching named actions to the input sink (utils/bot/__init__.py). */
module Utils {
  import opened Effects
  import opened BotAction
  import Input

  // ---------------------------------------------------------------------
  // Parsed documents
  // ---------------------------------------------------------------------

  /** An item of an action list as parsed: every field may be absent. */
  datatype RawAction = RawAction(name: Option<string>, key: Option<string>, cooldown: Option<int>)

  /** The action-bindings document; an absent or null list is None. */
  datatype RawBotConfig = RawBotConfig(
    movement: Option<seq<RawAction>>,
    attacks: Option<seq<RawAction>>,
    buffs: Option<seq<RawAction>>,
    specials: Option<seq<RawAction>>)

  datatype RawPoint = RawPoint(x: Option<int>, y: Option<int>)
  datatype RawSummon = RawSummon(name: Option<string>, point: Option<string>)
  datatype RawStep = RawStep(
    kind: Option<string>, fromPoint: Option<string>, toPoint: Option<string>,
    jumps: Option<int>, attack: Option<string>, style: Option<string>)

  /** The pattern document; an absent (or, for the lists, null) entry is None. */
  datatype RawPattern = RawPattern(
    mapName: Option<string>,
    points: Option<map<string, RawPoint>>,
    summons: Option<seq<RawSummon>>,
    huntingLoop: Option<seq<RawStep>>)

  /** `raw_list or []` */
  function ItemsOf<T>(raw: Option<seq<T>>): seq<T> {
    if raw.Some? then raw.value else []
  }

  /** A truthy string: present and not empty. */
  predicate Truthy(s: Option<string>) {
    s.Some? && s.value != ""
  }

  // ---------------------------------------------------------------------
  // _load_group and load_bot_config
  // ---------------------------------------------------------------------

  predicate Named(item: RawAction, name: string) {
    item.name == Some(name) && name != ""
  }

  /** The group built from `items`, item by item. */
  function GroupOf(items: seq<RawAction>): map<string, ActionConfig> {
    if items == [] then map[]
    else
      var g := GroupOf(items[..|items| - 1]);
      var item := items[|items| - 1];
      if Truthy(item.name) then g[item.name.value := ActionConfig(item.name.value, item.key, item.cooldown)]
      else g
  }

  /** A name is in the group iff some item carries it; its entry comes from
      the last such item, so later items overwrite earlier ones. */
  lemma {:induction false} GroupOfContents(items: seq<RawAction>, name: string)
    ensures name in GroupOf(items) <==> exists i :: 0 <= i < |items| && Named(items[i], name)
    ensures forall i :: 0 <= i < |items| && Named(items[i], name) &&
                        (forall j :: i < j < |items| ==> !Named(items[j], name)) ==>
      name in GroupOf(items) && GroupOf(items)[name] == ActionConfig(name, items[i].key, items[i].cooldown)
  {
    if items != [] {
      var init := items[..|items| - 1];
      GroupOfContents(init, name);
      if exists i :: 0 <= i < |init| && Named(init[i], name) {
        var i :| 0 <= i < |init| && Named(init[i], name);
        assert Named(items[i], name);
      }
    }
  }

  /** _load_group: a missing list gives an empty group, nameless items are skipped. */
  method LoadGroup(raw: Option<seq<RawAction>>) returns (result: map<string, ActionConfig>)
    ensures result == GroupOf(ItemsOf(raw))
    ensures raw.None? ==> result == map[]
  {
    var items := ItemsOf(raw);
    result := map[];
    for i := 0 to |items|
      invariant result == GroupOf(items[..i])
    {
      assert items[..i + 1][..i] == items[..i];
      var item := items[i];
      if item.name.None? || item.name.value == "" {
        continue;
      }
      result := result[item.name.value := ActionConfig(item.name.value, item.key, item.cooldown)];
    }
    assert items[..|items|] == items;
  }

  function ConfigOf(raw: RawBotConfig): BotConfig {
    BotConfig(GroupOf(ItemsOf(raw.movement)), GroupOf(ItemsOf(raw.attacks)),
              GroupOf(ItemsOf(raw.buffs)), GroupOf(ItemsOf(raw.specials)))
  }

  /** The list of the document for a category name, None for any other name. */
  function RawGroup(raw: RawBotConfig, category: string): Option<seq<RawAction>> {
    if category == "movement" then raw.movement
    else if category == "attacks" then raw.attacks
    else if category == "buffs" then raw.buffs
    else if category == "specials" then raw.specials
    else None
  }

  // ---------------------------------------------------------------------
  // load_pattern_config
  // ---------------------------------------------------------------------

  /** The points dict: `Point(name=name, x=info["x"], y=info["y"])` per entry. */
  function PointsOf(raw: map<string, RawPoint>): Result<map<string, Point>> {
    if exists n :: n in raw && (raw[n].x.None? || raw[n].y.None?) then Err(MissingField("points"))
    else Ok(map n | n in raw :: Point(n, raw[n].x.value, raw[n].y.value))
  }

  function SummonsOf(raw: seq<RawSummon>): Result<seq<SummonPoint>> {
    if exists i :: 0 <= i < |raw| && (raw[i].name.None? || raw[i].point.None?) then Err(MissingField("summons"))
    else Ok(seq(|raw|, i requires 0 <= i < |raw| => SummonPoint(raw[i].name.value, raw[i].point.value)))
  }

  /** One hunting step: type, from, to and attack are required, jumps defaults
      to 0 and style to "hold". */
  function StepOf(raw: RawStep): Result<HuntingStep> {
    if raw.kind.None? || raw.fromPoint.None? || raw.toPoint.None? || raw.attack.None? then
      Err(MissingField("hunting_loop"))
    else
      Ok(HuntingStep(raw.fromPoint.value, raw.toPoint.value,
                     if raw.jumps.Some? then raw.jumps.value else 0,
                     raw.attack.value, raw.kind.value,
                     if raw.style.Some? then raw.style.value else "hold"))
  }

  /** The hunting loop list after `steps`, appended one by one. */
  function HuntingLoopOf(steps: seq<RawStep>): Result<seq<HuntingStep>> {
    if steps == [] then Ok([])
    else match HuntingLoopOf(steps[..|steps| - 1])
      case Err(e) => Err(e)
      case Ok(loop) =>
        match StepOf(steps[|steps| - 1])
        case Err(e) => Err(e)
        case Ok(st) => Ok(loop + [st])
  }

  lemma {:induction false} HuntingLoopOfSteps(steps: seq<RawStep>)
    ensures HuntingLoopOf(steps).Ok? <==> forall i :: 0 <= i < |steps| ==> StepOf(steps[i]).Ok?
    ensures HuntingLoopOf(steps).Ok? ==>
      |HuntingLoopOf(steps).value| == |steps| &&
      forall i :: 0 <= i < |steps| ==> HuntingLoopOf(steps).value[i] == StepOf(steps[i]).value
  {
    if steps != [] {
      HuntingLoopOfSteps(steps[..|steps| - 1]);
    }
  }

  /** The whole document, in the source's order of evaluation. */
  function PatternOf(raw: RawPattern): Result<PatternConfig> {
    match PointsOf(if raw.points.Some? then raw.points.value else map[])
    case Err(e) => Err(e)
    case Ok(points) =>
      match SummonsOf(ItemsOf(raw.summons))
      case Err(e) => Err(e)
      case Ok(summons) =>
        match HuntingLoopOf(ItemsOf(raw.huntingLoop))
        case Err(e) => Err(e)
        case Ok(loop) =>
          if raw.mapName.None? then Err(MissingField("map_name"))
          else Ok(PatternConfig(raw.mapName.value, points, summons, loop))
  }

  /** The hunting-loop branch of load_pattern_config: a loop that appends. */
  method LoadHuntingLoop(raw: Option<seq<RawStep>>) returns (r: Result<seq<HuntingStep>>)
    ensures r == HuntingLoopOf(ItemsOf(raw))
  {
    var steps := ItemsOf(raw);
    var loop: seq<HuntingStep> := [];
    for i := 0 to |steps|
      invariant HuntingLoopOf(steps[..i]) == Ok(loop)
    {
      assert steps[..i + 1][..i] == steps[..i];
      var st := StepOf(steps[i]);
      if st.Err? {
        r := Err(st.error);
        assert HuntingLoopOf(steps[..i + 1]) == r;
        HuntingLoopErrSticks(steps, i + 1);
        return;
      }
      loop := loop + [st.value];
    }
    assert steps[..|steps|] == steps;
    r := Ok(loop);
  }

  lemma {:induction false} HuntingLoopErrSticks(steps: seq<RawStep>, m: nat)
    requires m <= |steps|
    requires HuntingLoopOf(steps[..m]).Err?
    ensures HuntingLoopOf(steps) == HuntingLoopOf(steps[..m])
  {
    if m < |steps| {
      assert steps[..|steps| - 1][..m] == steps[..m];
      HuntingLoopErrSticks(steps[..|steps| - 1], m);
    } else {
      assert steps[..m] == steps;
    }
  }

  method LoadPatternConfig(raw: RawPattern) returns (r: Result<PatternConfig>)
    ensures r == PatternOf(raw)
  {
    var points := PointsOf(if raw.points.Some? then raw.points.value else map[]);
    if points.Err? {
      return Err(points.error);
    }
    var summons := SummonsOf(ItemsOf(raw.summons));
    if summons.Err? {
      return Err(summons.error);
    }
    var loop := LoadHuntingLoop(raw.huntingLoop);
    if loop.Err? {
      return Err(loop.error);
    }
    if raw.mapName.None? {
      return Err(MissingField("map_name"));
    }
    r := Ok(PatternConfig(raw.mapName.value, points.value, summons.value, loop.value));
  }

  /** Points are keyed by name with the point's own name equal to its key;
      every hunting step gets jumps 0 and style "hold" when they are absent;
      a missing summons or hunting_loop list gives an empty list. */
  lemma PatternShape(raw: RawPattern)
    ensures PatternOf(raw).Ok? ==>
      var p := PatternOf(raw).value;
      var rawPoints := if raw.points.Some? then raw.points.value else map[];
      var steps := ItemsOf(raw.huntingLoop);
      && p.points.Keys == rawPoints.Keys
      && (forall n :: n in p.points ==> p.points[n].name == n &&
                                        Some(p.points[n].x) == rawPoints[n].x && Some(p.points[n].y) == rawPoints[n].y)
      && |p.huntingLoop| == |steps|
      && (forall i :: 0 <= i < |steps| ==>
            p.huntingLoop[i].jumps == (if steps[i].jumps.Some? then steps[i].jumps.value else 0) &&
            p.huntingLoop[i].style == (if steps[i].style.Some? then steps[i].style.value else "hold"))
      && (raw.summons.None? ==> p.summons == [])
      && (raw.huntingLoop.None? ==> p.huntingLoop == [])
    ensures raw.mapName.None? ==> PatternOf(raw).Err?
  {
    HuntingLoopOfSteps(ItemsOf(raw.huntingLoop));
  }

  // ---------------------------------------------------------------------
  // Dispatch of named actions: what press_action, hold_action,
  // key_down_action and key_up_action emit
  // ---------------------------------------------------------------------

  /** press_action: KeyError for an absent action, nothing for an unbound
      key, otherwise a press of the bound key. */
  function PressActionRun(c: BotConfig, vkMap: map<string, int>, category: string, action: string,
                          presses: int, interval: Delay): Run {
    match GetKey(c, category, action)
    case Err(e) => Raise(e)
    case Ok(key) => if Truthy(key) then Input.PressRun(vkMap, key.value, presses, interval) else Done
  }

  /** The key hold_action holds: ValueError when none is bound. */
  function HoldKey(c: BotConfig, category: string, action: string): Result<string> {
    match GetKey(c, category, action)
    case Err(e) => Err(e)
    case Ok(key) => if Truthy(key) then Ok(key.value) else Err(NoKeyBound(category, action))
  }

  /** `with hold_action(category, action): body` */
  function HoldActionRun(c: BotConfig, vkMap: map<string, int>, category: string, action: string, body: Run): Run {
    match HoldKey(c, category, action)
    case Err(e) => Raise(e)
    case Ok(key) => Input.HoldRun(vkMap, key, body)
  }

  /** key_down_action (down = true) or key_up_action. */
  function KeyActionRun(c: BotConfig, vkMap: map<string, int>, category: string, action: string, down: bool): Run {
    match GetKey(c, category, action)
    case Err(e) => Raise(e)
    case Ok(key) => if Truthy(key) then Input.KeyEvent(vkMap, key.value, down) else Done
  }

  /** With no key bound, press_action, key_down_action and key_up_action emit
      nothing and return, while hold_action raises ValueError before its body;
      an absent action raises KeyError from all of them. */
  lemma UnboundKeyDispatch(c: BotConfig, vkMap: map<string, int>, category: string, action: string,
                           presses: int, interval: Delay, body: Run, down: bool)
    ensures GetKey(c, category, action).Ok? && !Truthy(GetKey(c, category, action).value) ==>
      && PressActionRun(c, vkMap, category, action, presses, interval) == Done
      && KeyActionRun(c, vkMap, category, action, down) == Done
      && HoldActionRun(c, vkMap, category, action, body) == Raise(NoKeyBound(category, action))
    ensures action !in Group(c, category) ==>
      && PressActionRun(c, vkMap, category, action, presses, interval) == Raise(KeyError(category, action))
      && KeyActionRun(c, vkMap, category, action, down) == Raise(KeyError(category, action))
      && HoldActionRun(c, vkMap, category, action, body) == Raise(KeyError(category, action))
  {
  }

  /** BotUtils: the loaded bindings and the input sink they are sent to. */
  class BotUtils {
    var config: BotConfig
    const input: Input.BackgroundInput

    constructor (input: Input.BackgroundInput)
      ensures config == EmptyConfig && this.input == input
    {
      config := EmptyConfig;
      this.input := input;
    }

    /** load_bot_config: exactly the four groups, each from the same-named list. */
    method LoadBotConfig(raw: RawBotConfig) returns (c: BotConfig)
      modifies this
      ensures config == c
      ensures forall category :: IsCategory(category) ==> Group(c, category) == GroupOf(ItemsOf(RawGroup(raw, category)))
    {
      var movement := LoadGroup(raw.movement);
      var attacks := LoadGroup(raw.attacks);
      var buffs := LoadGroup(raw.buffs);
      var specials := LoadGroup(raw.specials);
      config := BotConfig(movement, attacks, buffs, specials);
      c := config;
    }

    function KeyFor(category: string, action: string): Result<Option<string>>
      reads this
    {
      GetKey(config, category, action)
    }

    method PressAction(category: string, action: string, presses: int, interval: Delay) returns (o: Outcome)
      modifies input.log
      ensures input.log.entries == old(input.log.entries) + PressActionRun(config, input.vkMap, category, action, presses, interval).effects
      ensures o == PressActionRun(config, input.vkMap, category, action, presses, interval).outcome
    {
      var key := KeyFor(category, action);
      if key.Err? {
        return Fail(key.error);
      }
      o := Pass;
      if key.value.Some? && key.value.value != "" {
        o := input.Press(key.value.value, presses, interval);
      }
    }

    /** The entry of `with hold_action(...)`: KeyError, ValueError for no key,
        or the key's key_down. */
    method HoldBegin(category: string, action: string) returns (key: string, o: Outcome)
      modifies input.log
      ensures o.Pass? ==>
        HoldKey(config, category, action) == Ok(key) && Input.Vk(input.vkMap, key).Ok? &&
        input.log.entries == old(input.log.entries) + [KeyDown(Input.Vk(input.vkMap, key).value)]
      ensures o.Fail? ==>
        input.log.entries == old(input.log.entries) &&
        forall body :: HoldActionRun(config, input.vkMap, category, action, body) == Raise(o.error)
    {
      var bound := KeyFor(category, action);
      if bound.Err? {
        return "", Fail(bound.error);
      }
      if bound.value.None? || bound.value.value == "" {
        return "", Fail(NoKeyBound(category, action));
      }
      key := bound.value.value;
      o := input.KeyDown(key);
    }

    /** The exit of `with hold_action(...)`: the key_up of the held key. */
    method HoldEnd(key: string)
      requires Input.Vk(input.vkMap, key).Ok?
      modifies input.log
      ensures input.log.entries == old(input.log.entries) + [KeyUp(Input.Vk(input.vkMap, key).value)]
    {
      var _ := input.KeyUp(key);
    }

    method KeyDownAction(category: string, action: string) returns (o: Outcome)
      modifies input.log
      ensures input.log.entries == old(input.log.entries) + KeyActionRun(config, input.vkMap, category, action, true).effects
      ensures o == KeyActionRun(config, input.vkMap, category, action, true).outcome
    {
      var key := KeyFor(category, action);
      if key.Err? {
        return Fail(key.error);
      }
      o := Pass;
      if key.value.Some? && key.value.value != "" {
        o := input.KeyDown(key.value.value);
      }
    }

    method KeyUpAction(category: string, action: string) returns (o: Outcome)
      modifies input.log
      ensures input.log.entries == old(input.log.entries) + KeyActionRun(config, input.vkMap, category, action, false).effects
      ensures o == KeyActionRun(config, input.vkMap, category, action, false).outcome
    {
      var key := KeyFor(category, action);
      if key.Err? {
        return Fail(key.error);
      }
      o := Pass;
      if key.value.Some? && key.value.value != "" {
        o := input.KeyUp(key.value.value);
      }
    }
  }
}
