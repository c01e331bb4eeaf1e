/** The OS-level keyboard sink (utils/bot/background_input.py): key names are
    resolved to virtual-key codes, and key events are appended to the shared
    effect log in place of keybd_event. The table of named keys (VK_MAP, whose
    values come from win32con) is a parameter. */
module Input {
  import opened Effects

  // ---------------------------------------------------------------------
  // Case mapping (ASCII) and substring search
  // ---------------------------------------------------------------------

  function LowerChar(c: char): char {
    if 'A' <= c <= 'Z' then (c as int + 32) as char else c
  }

  function UpperChar(c: char): char {
    if 'a' <= c <= 'z' then (c as int - 32) as char else c
  }

  function Lower(s: string): string {
    if s == [] then [] else [LowerChar(s[0])] + Lower(s[1..])
  }

  function Upper(s: string): string {
    if s == [] then [] else [UpperChar(s[0])] + Upper(s[1..])
  }

  /** Case mapping works character by character and keeps the length. */
  lemma {:induction false} CaseMapping(s: string)
    ensures |Lower(s)| == |s| && forall i :: 0 <= i < |s| ==> Lower(s)[i] == LowerChar(s[i])
    ensures |Upper(s)| == |s| && forall i :: 0 <= i < |s| ==> Upper(s)[i] == UpperChar(s[i])
  {
    if s != [] {
      CaseMapping(s[1..]);
    }
  }

  /** Lower-casing forgets any earlier case mapping. */
  lemma {:induction false} LowerAbsorbs(s: string)
    ensures Lower(Upper(s)) == Lower(s)
    ensures Lower(Lower(s)) == Lower(s)
  {
    if s != [] {
      LowerAbsorbs(s[1..]);
      assert Upper(s)[1..] == Upper(s[1..]);
      assert Lower(s)[1..] == Lower(s[1..]);
    }
  }

  /** Python's `p in s` on strings. */
  predicate Contains(s: string, p: string) {
    (|p| <= |s| && s[..|p|] == p) || (|s| > 0 && Contains(s[1..], p))
  }

  // ---------------------------------------------------------------------
  // _vk: key name to virtual-key code
  // ---------------------------------------------------------------------

  /** Lower-cases the name, looks it up in the named-key table, falls back to
      the code of the upper-cased character for one-character names, and
      raises ValueError otherwise. */
  function Vk(vkMap: map<string, int>, key: string): Result<int> {
    var k := Lower(key);
    if k in vkMap then Ok(vkMap[k])
    else if |k| == 1 then Ok(UpperChar(k[0]) as int)
    else Err(UnknownKey(k))
  }

  /** The lookup order of _vk: table first, then a single character, then an
      error naming the lower-cased key. */
  lemma VkResolution(vkMap: map<string, int>, key: string)
    ensures Lower(key) in vkMap ==> Vk(vkMap, key) == Ok(vkMap[Lower(key)])
    ensures Lower(key) !in vkMap && |key| == 1 ==> Vk(vkMap, key) == Ok(UpperChar(LowerChar(key[0])) as int)
    ensures Vk(vkMap, key).Err? <==> Lower(key) !in vkMap && |key| != 1
    ensures Vk(vkMap, key).Err? ==> Vk(vkMap, key).error == UnknownKey(Lower(key))
  {
    CaseMapping(key);
  }

  /** _vk does not distinguish a name from its upper-cased or lower-cased
      spelling. */
  lemma VkIgnoresCase(vkMap: map<string, int>, key: string)
    ensures Vk(vkMap, Upper(key)) == Vk(vkMap, key)
    ensures Vk(vkMap, Lower(key)) == Vk(vkMap, key)
  {
    LowerAbsorbs(key);
  }

  // ---------------------------------------------------------------------
  // find_window_by_title over an abstract list of top-level windows
  // ---------------------------------------------------------------------

  /** A top-level window as EnumWindows reports it. */
  datatype Window = Window(handle: int, visible: bool, title: string)

  predicate Matches(w: Window, keyword: string) {
    w.visible && Contains(Lower(w.title), Lower(keyword))
  }

  /** Window `i` is the first, in enumeration order, that matches. */
  predicate FirstMatchAt(ws: seq<Window>, keyword: string, i: int) {
    0 <= i < |ws| && Matches(ws[i], keyword) &&
    forall j :: 0 <= j < i ==> !Matches(ws[j], keyword)
  }

  /** The handles the enumeration callback appends, in order. */
  function MatchingHandles(ws: seq<Window>, keyword: string): seq<int> {
    if ws == [] then []
    else MatchingHandles(ws[..|ws| - 1], keyword) +
         (if Matches(ws[|ws| - 1], keyword) then [ws[|ws| - 1].handle] else [])
  }

  lemma {:induction false} MatchingHandlesHead(ws: seq<Window>, keyword: string)
    ensures MatchingHandles(ws, keyword) == [] <==> forall i :: 0 <= i < |ws| ==> !Matches(ws[i], keyword)
    ensures MatchingHandles(ws, keyword) != [] ==>
      exists i :: FirstMatchAt(ws, keyword, i) && ws[i].handle == MatchingHandles(ws, keyword)[0]
  {
    if ws != [] {
      var init := ws[..|ws| - 1];
      MatchingHandlesHead(init, keyword);
      if MatchingHandles(init, keyword) != [] {
        var i :| FirstMatchAt(init, keyword, i) && init[i].handle == MatchingHandles(init, keyword)[0];
        assert FirstMatchAt(ws, keyword, i);
      } else if Matches(ws[|ws| - 1], keyword) {
        assert FirstMatchAt(ws, keyword, |ws| - 1);
      }
    }
  }

  /** find_window_by_title: the handle of the first visible window whose title
      contains the keyword, ignoring case, or None. */
  method FindWindowByTitle(windows: seq<Window>, keyword: string) returns (r: Option<int>)
    ensures r.None? <==> forall i :: 0 <= i < |windows| ==> !Matches(windows[i], keyword)
    ensures r.Some? ==> exists i :: FirstMatchAt(windows, keyword, i) && windows[i].handle == r.value
  {
    var result: seq<int> := [];
    for i := 0 to |windows|
      invariant result == MatchingHandles(windows[..i], keyword)
    {
      assert windows[..i + 1][..i] == windows[..i];
      var w := windows[i];
      if w.visible && Contains(Lower(w.title), Lower(keyword)) {
        result := result + [w.handle];
      }
    }
    assert windows[..|windows|] == windows;
    MatchingHandlesHead(windows, keyword);
    r := if result != [] then Some(result[0]) else None;
  }

  // ---------------------------------------------------------------------
  // Key events: what key_down, key_up, press and hold emit
  // ---------------------------------------------------------------------

  /** key_down (down = true) or key_up: resolve the code, then one event. */
  function KeyEvent(vkMap: map<string, int>, key: string, down: bool): Run {
    match Vk(vkMap, key)
    case Err(e) => Raise(e)
    case Ok(vk) => Run([if down then KeyDown(vk) else KeyUp(vk)], Pass)
  }

  /** One iteration of press: down, 30 ms, up, then the interval if positive. */
  function PressOnce(vkMap: map<string, int>, key: string, interval: Delay): Run {
    Then(Then(Then(KeyEvent(vkMap, key, true), Pause(0.03)), KeyEvent(vkMap, key, false)),
         if Positive(interval) then Run([Sleep(interval)], Pass) else Done)
  }

  /** One press of a key whose code is `vk`: down, 30 ms, up, then the
      interval when it is positive. */
  lemma PressOnceShape(vkMap: map<string, int>, key: string, interval: Delay, vk: int)
    requires Vk(vkMap, key) == Ok(vk)
    ensures PressOnce(vkMap, key, interval) ==
      Run([KeyDown(vk), Sleep(Seconds(0.03)), KeyUp(vk)] + (if Positive(interval) then [Sleep(interval)] else []), Pass)
  {
  }

  /** press(key, presses, interval): `range(presses)` iterations. */
  function PressRun(vkMap: map<string, int>, key: string, presses: int, interval: Delay): Run {
    Repeat(PressOnce(vkMap, key, interval), if presses > 0 then presses else 0)
  }

  /** hold(key) around a body: key_down first, and key_up in the `finally`,
      which runs whether the body returned or raised. */
  function HoldRun(vkMap: map<string, int>, key: string, body: Run): Run {
    match Vk(vkMap, key)
    case Err(e) => Raise(e)
    case Ok(vk) => Run([KeyDown(vk)] + body.effects + [KeyUp(vk)], body.outcome)
  }

  /** The key events of a sequence of effects, sleeps dropped. */
  function KeyEvents(es: seq<Effect>): seq<Effect> {
    if es == [] then []
    else KeyEvents(es[..|es| - 1]) + (if es[|es| - 1].Sleep? then [] else [es[|es| - 1]])
  }

  lemma {:induction false} KeyEventsAppend(a: seq<Effect>, b: seq<Effect>)
    ensures KeyEvents(a + b) == KeyEvents(a) + KeyEvents(b)
  {
    if b == [] {
      assert a + b == a;
    } else {
      assert (a + b)[..|a + b| - 1] == a + b[..|b| - 1];
      KeyEventsAppend(a, b[..|b| - 1]);
    }
  }

  lemma KeyEventsSingle(e: Effect)
    ensures KeyEvents([e]) == if e.Sleep? then [] else [e]
  {
    assert [e][..0] == [];
  }

  lemma {:induction false} KeyEventsCopies(once: seq<Effect>, n: nat)
    ensures KeyEvents(Copies(once, n)) == Copies(KeyEvents(once), n)
  {
    if n > 0 {
      KeyEventsCopies(once, n - 1);
      KeyEventsAppend(Copies(once, n - 1), once);
    }
  }

  lemma KeyEventsSleepTail(es: seq<Effect>, d: Delay)
    ensures KeyEvents(es + [Sleep(d)]) == KeyEvents(es)
  {
    KeyEventsAppend(es, [Sleep(d)]);
    KeyEventsSingle(Sleep(d));
  }

  lemma KeyEventsBracket(a: Effect, mid: seq<Effect>, b: Effect)
    requires !a.Sleep? && !b.Sleep?
    ensures KeyEvents([a] + mid + [b]) == [a] + KeyEvents(mid) + [b]
  {
    KeyEventsAppend([a], mid);
    KeyEventsAppend([a] + mid, [b]);
    KeyEventsSingle(a);
    KeyEventsSingle(b);
  }

  /** The key events of one press: its down and its up, the sleeps dropped. */
  lemma PressOnceKeys(vk: int, interval: Delay)
    ensures KeyEvents([KeyDown(vk), Sleep(Seconds(0.03)), KeyUp(vk)] + (if Positive(interval) then [Sleep(interval)] else []))
      == [KeyDown(vk), KeyUp(vk)]
  {
    var pair := [KeyDown(vk), Sleep(Seconds(0.03)), KeyUp(vk)];
    assert pair == [KeyDown(vk)] + [Sleep(Seconds(0.03))] + [KeyUp(vk)];
    KeyEventsBracket(KeyDown(vk), [Sleep(Seconds(0.03))], KeyUp(vk));
    KeyEventsSingle(Sleep(Seconds(0.03)));
    if Positive(interval) {
      KeyEventsSleepTail(pair, interval);
    } else {
      assert pair + [] == pair;
    }
  }

  /** press(key, n) emits exactly n down/up pairs of the key's code, strictly
      alternating, and nothing for n <= 0; an unknown key raises before any
      event when n > 0. */
  lemma PressEmitsPairs(vkMap: map<string, int>, key: string, presses: int, interval: Delay)
    ensures presses <= 0 ==> PressRun(vkMap, key, presses, interval) == Done
    ensures Vk(vkMap, key).Ok? ==>
      var r := PressRun(vkMap, key, presses, interval);
      var vk := Vk(vkMap, key).value;
      r.outcome == Pass &&
      KeyEvents(r.effects) == Copies([KeyDown(vk), KeyUp(vk)], if presses > 0 then presses else 0)
    ensures Vk(vkMap, key).Err? && presses > 0 ==>
      PressRun(vkMap, key, presses, interval) == Raise(Vk(vkMap, key).error)
  {
    var once := PressOnce(vkMap, key, interval);
    var n := if presses > 0 then presses else 0;
    match Vk(vkMap, key)
    case Ok(vk) =>
      PressOnceShape(vkMap, key, interval, vk);
      PressOnceKeys(vk, interval);
      RepeatPassing(once, n);
      KeyEventsCopies(once.effects, n);
      assert KeyEvents(once.effects) == [KeyDown(vk), KeyUp(vk)];
    case Err(e) =>
      if n > 0 {
        RepeatFailing(once, n);
      }
  }

  /** hold always releases: when the key resolves, the body's effects are
      bracketed by the key's down and up events and the body's outcome, normal
      or raised, is the hold's. */
  lemma HoldAlwaysReleases(vkMap: map<string, int>, key: string, body: Run)
    ensures Vk(vkMap, key).Ok? ==>
      var r := HoldRun(vkMap, key, body);
      var vk := Vk(vkMap, key).value;
      |r.effects| == |body.effects| + 2 &&
      r.effects[0] == KeyDown(vk) && r.effects[|r.effects| - 1] == KeyUp(vk) &&
      r.effects[1..|r.effects| - 1] == body.effects &&
      r.outcome == body.outcome
    ensures Vk(vkMap, key).Err? ==> HoldRun(vkMap, key, body) == Raise(Vk(vkMap, key).error)
  {
    if Vk(vkMap, key).Ok? {
      var r := HoldRun(vkMap, key, body);
      assert r.effects[1..|r.effects| - 1] == body.effects;
    }
  }

  /** BackgroundInput: the bound window and the effect log it writes to. */
  class BackgroundInput {
    const hwnd: int
    const vkMap: map<string, int>
    const log: Log

    constructor (hwnd: int, vkMap: map<string, int>, log: Log)
      ensures this.hwnd == hwnd && this.vkMap == vkMap && this.log == log
    {
      this.hwnd := hwnd;
      this.vkMap := vkMap;
      this.log := log;
    }

    method KeyDown(key: string) returns (o: Outcome)
      modifies log
      ensures log.entries == old(log.entries) + KeyEvent(vkMap, key, true).effects
      ensures o == KeyEvent(vkMap, key, true).outcome
    {
      match Vk(vkMap, key)
      case Err(e) =>
        o := Fail(e);
      case Ok(vk) =>
        log.Append(Effects.KeyDown(vk));
        o := Pass;
    }

    method KeyUp(key: string) returns (o: Outcome)
      modifies log
      ensures log.entries == old(log.entries) + KeyEvent(vkMap, key, false).effects
      ensures o == KeyEvent(vkMap, key, false).outcome
    {
      match Vk(vkMap, key)
      case Err(e) =>
        o := Fail(e);
      case Ok(vk) =>
        log.Append(Effects.KeyUp(vk));
        o := Pass;
    }

    /** One iteration of press: down, 30 ms, up, the interval. */
    method PressOne(key: string, interval: Delay) returns (o: Outcome)
      modifies log
      ensures log.entries == old(log.entries) + PressOnce(vkMap, key, interval).effects
      ensures o == PressOnce(vkMap, key, interval).outcome
    {
      o := KeyDown(key);
      if o.Fail? {
        return;
      }
      ghost var vk := Vk(vkMap, key).value;
      log.Wait(0.03);
      o := KeyUp(key);
      if Positive(interval) {
        log.Append(Sleep(interval));
      }
      PressOnceShape(vkMap, key, interval, vk);
    }

    /** press: `presses` down/up pairs with a 30 ms gap, then the interval. */
    method Press(key: string, presses: int, interval: Delay) returns (o: Outcome)
      modifies log
      ensures log.entries == old(log.entries) + PressRun(vkMap, key, presses, interval).effects
      ensures o == PressRun(vkMap, key, presses, interval).outcome
    {
      var n := if presses > 0 then presses else 0;
      ghost var body := PressOnce(vkMap, key, interval);
      o := Pass;
      for i := 0 to n
        invariant Repeat(body, i).outcome == Pass && o == Pass
        invariant log.entries == old(log.entries) + Repeat(body, i).effects
      {
        o := PressOne(key, interval);
        if o.Fail? {
          RepeatFailSticks(body, i + 1, n);
          return;
        }
        AppendAssoc(old(log.entries), Repeat(body, i).effects, body.effects);
      }
    }
  }

  /** The constructor's window lookup: RuntimeError when no window matches
      (or the match is the null handle), otherwise an input bound to it. */
  method Open(windows: seq<Window>, windowName: string, vkMap: map<string, int>, log: Log)
    returns (input: BackgroundInput?, o: Outcome)
    ensures o.Pass? <==> input != null
    ensures o.Fail? ==> o.error == WindowNotFound(windowName)
    ensures (forall i :: 0 <= i < |windows| ==> !Matches(windows[i], windowName)) ==> o.Fail?
    ensures (exists i :: FirstMatchAt(windows, windowName, i) && windows[i].handle != 0) ==> o.Pass?
    ensures input != null ==>
      fresh(input) && input.log == log && input.vkMap == vkMap && input.hwnd != 0 &&
      exists i :: FirstMatchAt(windows, windowName, i) && windows[i].handle == input.hwnd
  {
    var found := FindWindowByTitle(windows, windowName);
    if found.None? || found.value == 0 {
      return null, Fail(WindowNotFound(windowName));
    }
    input := new BackgroundInput(found.value, vkMap, log);
    o := Pass;
  }
}
