/** Action bindings (models/bot_action.py) and pattern records
    (models/points.py). */
module BotAction {
  import opened Effects

  /** One named action: its key binding and cooldown, both optional. */
  datatype ActionConfig = ActionConfig(name: string, key: Option<string>, cooldown: Option<int>)

  /** The four fixed categories of actions, each a name-to-action map. */
  datatype BotConfig = BotConfig(
    movement: map<string, ActionConfig>,
    attacks: map<string, ActionConfig>,
    buffs: map<string, ActionConfig>,
    specials: map<string, ActionConfig>)

  const EmptyConfig: BotConfig := BotConfig(map[], map[], map[], map[])

  predicate IsCategory(category: string) {
    category == "movement" || category == "attacks" || category == "buffs" || category == "specials"
  }

  /** getattr(self, category, {}): an unknown category reads as an empty group. */
  function Group(c: BotConfig, category: string): map<string, ActionConfig> {
    if category == "movement" then c.movement
    else if category == "attacks" then c.attacks
    else if category == "buffs" then c.buffs
    else if category == "specials" then c.specials
    else map[]
  }

  /** BotConfig.get: the stored action, or KeyError when it is absent. */
  function Get(c: BotConfig, category: string, action: string): (r: Result<ActionConfig>)
    ensures r.Ok? <==> action in Group(c, category)
    ensures r.Ok? ==> r.value == Group(c, category)[action]
    ensures r.Err? ==> r.error == KeyError(category, action)
  {
    var group := Group(c, category);
    if action !in group then Err(KeyError(category, action)) else Ok(group[action])
  }

  /** BotConfig.get_key: the key of `get`, possibly None; KeyError propagates. */
  function GetKey(c: BotConfig, category: string, action: string): (r: Result<Option<string>>)
    ensures r.Ok? <==> Get(c, category, action).Ok?
    ensures r.Ok? ==> r.value == Get(c, category, action).value.key
    ensures r.Err? ==> r == Err(Get(c, category, action).error)
  {
    match Get(c, category, action)
    case Ok(cfg) => Ok(cfg.key)
    case Err(e) => Err(e)
  }

  /** An unknown category behaves as an empty group: every lookup raises. */
  lemma UnknownCategoryRaises(c: BotConfig, category: string, action: string)
    requires !IsCategory(category)
    ensures Get(c, category, action) == Err(KeyError(category, action))
    ensures GetKey(c, category, action) == Err(KeyError(category, action))
  {
  }

  // ---------------------------------------------------------------------
  // Pattern records (models/points.py)
  // ---------------------------------------------------------------------

  datatype Point = Point(name: string, x: int, y: int)

  /** A summon and the name of the point where it is placed. */
  datatype SummonPoint = SummonPoint(name: string, point: string)

  /** One leg of the hunting loop; `kind` is the source's `type`. */
  datatype HuntingStep = HuntingStep(
    fromPoint: string, toPoint: string, jumps: int, attack: string, kind: string, style: string)

  /** The dataclass defaults: type "sweep", style "hold". */
  function NewHuntingStep(fromPoint: string, toPoint: string, jumps: int, attack: string): HuntingStep {
    HuntingStep(fromPoint, toPoint, jumps, attack, "sweep", "hold")
  }

  datatype PatternConfig = PatternConfig(
    mapName: string,
    points: map<string, Point>,
    summons: seq<SummonPoint>,
    huntingLoop: seq<HuntingStep>)
}
