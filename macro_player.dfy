/** The keyboard macro player: plays a loaded list of events in order,
    pressing and releasing keys by name, keeps the set of keys it holds,
    and releases all of them whenever playback ends. */
module Player {
  import opened Effects
  import opened MacroFiles
  import Input
  import Recorder

  /** What the player sends to the keyboard: a key down or up by name, a
      wait until `t` seconds after playback started, or a plain sleep (Rest). */
  datatype Stroke = Down(key: string) | Up(key: string) | WaitUntil(t: real) | Rest(s: real)

  /** The keyboard as seen from the player. */
  class Keyboard {
    var sent: seq<Stroke>

    constructor ()
      ensures sent == []
    {
      sent := [];
    }

    method Send(s: Stroke)
      modifies this
      ensures sent == old(sent) + [s]
    {
      sent := sent + [s];
    }
  }

  /** The keys down after one stroke. */
  function ApplyStroke(held: set<string>, s: Stroke): set<string> {
    match s
    case Down(k) => held + {k}
    case Up(k) => held - {k}
    case _ => held
  }

  /** The keys down after `strokes`, starting from `held`. */
  function HeldAfter(held: set<string>, strokes: seq<Stroke>): set<string> {
    if strokes == [] then held
    else ApplyStroke(HeldAfter(held, strokes[..|strokes| - 1]), strokes[|strokes| - 1])
  }

  lemma HeldAfterSnoc(held: set<string>, a: seq<Stroke>, x: Stroke)
    ensures HeldAfter(held, a + [x]) == ApplyStroke(HeldAfter(held, a), x)
  {
    assert (a + [x])[..|a|] == a;
  }

  lemma {:induction false} HeldAfterAppend(held: set<string>, a: seq<Stroke>, b: seq<Stroke>)
    ensures HeldAfter(held, a + b) == HeldAfter(HeldAfter(held, a), b)
  {
    if b != [] {
      assert (a + b)[..|a + b| - 1] == a + b[..|b| - 1];
      HeldAfterAppend(held, a, b[..|b| - 1]);
    } else {
      assert a + b == a;
    }
  }

  /** `ups` releases each key of `keys` exactly once, in some order. */
  predicate ReleasesExactly(ups: seq<Stroke>, keys: set<string>) {
    && |ups| == |keys|
    && (forall i :: 0 <= i < |ups| ==> ups[i].Up? && ups[i].key in keys)
    && (forall k :: k in keys ==> exists i :: 0 <= i < |ups| && ups[i] == Up(k))
  }

  /** `l` lists the keys of `s`: list() of a set, in some order. */
  predicate Listing(l: seq<string>, s: set<string>) {
    |l| == |s| && (forall i :: 0 <= i < |l| ==> l[i] in s) && (forall k :: k in s ==> k in l)
  }

  lemma {:induction false} ListingExists(s: set<string>)
    ensures exists l :: Listing(l, s)
    decreases |s|
  {
    if s == {} {
      assert Listing([], s);
    } else {
      var x :| x in s;
      ListingExists(s - {x});
      var l :| Listing(l, s - {x});
      assert Listing(l + [x], s);
    }
  }

  /** Key-ups for the keys of `l`, in order. */
  function UpsOf(l: seq<string>): seq<Stroke> {
    if l == [] then [] else UpsOf(l[..|l| - 1]) + [Up(l[|l| - 1])]
  }

  lemma {:induction false} UpsOfAt(l: seq<string>)
    ensures |UpsOf(l)| == |l| && forall i :: 0 <= i < |l| ==> UpsOf(l)[i] == Up(l[i])
  {
    if l != [] {
      UpsOfAt(l[..|l| - 1]);
    }
  }

  /** Key-ups over a listing of a set release each of its keys once. */
  lemma ListingReleases(l: seq<string>, s: set<string>)
    requires Listing(l, s)
    ensures ReleasesExactly(UpsOf(l), s)
  {
    UpsOfAt(l);
    forall k | k in s
      ensures exists i :: 0 <= i < |UpsOf(l)| && UpsOf(l)[i] == Up(k)
    {
      var i :| 0 <= i < |l| && l[i] == k;
      assert UpsOf(l)[i] == Up(k);
    }
  }

  /** The keys the key-ups of `ups` name. */
  function UpKeys(ups: seq<Stroke>): set<string> {
    set i | 0 <= i < |ups| && ups[i].Up? :: ups[i].key
  }

  /** A run of key-ups leaves down exactly the keys it does not name. */
  lemma {:induction false} UpsRelease(held: set<string>, ups: seq<Stroke>)
    requires forall i :: 0 <= i < |ups| ==> ups[i].Up?
    ensures HeldAfter(held, ups) == held - UpKeys(ups)
  {
    if ups != [] {
      var init := ups[..|ups| - 1];
      UpsRelease(held, init);
      assert UpKeys(ups) == UpKeys(init) + {ups[|ups| - 1].key} by {
        forall k | k in UpKeys(ups) ensures k in UpKeys(init) + {ups[|ups| - 1].key} {
          var i :| 0 <= i < |ups| && ups[i].Up? && ups[i].key == k;
          if i < |ups| - 1 {
            assert init[i] == ups[i];
          }
        }
        forall k | k in UpKeys(init) ensures k in UpKeys(ups) {
          var i :| 0 <= i < |init| && init[i].Up? && init[i].key == k;
          assert ups[i] == init[i];
        }
      }
    } else {
      assert UpKeys(ups) == {};
    }
  }

  /** Releasing exactly the held keys, in any order, leaves none down. */
  lemma ReleasesLeaveNothing(held: set<string>, ups: seq<Stroke>)
    requires ReleasesExactly(ups, held)
    ensures HeldAfter(held, ups) == {}
  {
    UpsRelease(held, ups);
    forall k | k in held ensures k in UpKeys(ups) {
      var i :| 0 <= i < |ups| && ups[i] == Up(k);
    }
  }

  /** Held keys tracked through `a` and then released: none stay down. */
  lemma ReleaseTracked(held0: set<string>, a: seq<Stroke>, ups: seq<Stroke>)
    requires ReleasesExactly(ups, HeldAfter(held0, a))
    ensures HeldAfter(held0, a + ups) == {}
  {
    HeldAfterAppend(held0, a, ups);
    ReleasesLeaveNothing(HeldAfter(held0, a), ups);
  }

  /** The same after a walk of some events in between. */
  lemma PlayTracked(held0: set<string>, a: seq<Stroke>, evs: seq<RawEvent>, ups: seq<Stroke>)
    requires ReleasesExactly(ups, Walk(HeldAfter(held0, a), evs).held)
    ensures HeldAfter(held0, a + Walk(HeldAfter(held0, a), evs).strokes + ups) == {}
  {
    var w := Walk(HeldAfter(held0, a), evs);
    WalkTracksHeld(HeldAfter(held0, a), evs);
    HeldAfterAppend(held0, a, w.strokes);
    ReleaseTracked(held0, a + w.strokes, ups);
  }

  /** One entry as _play_once reads it: time, key and type, or the
      exception raised by a missing or unconvertible field. */
  datatype Parsed = Parsed(time: real, key: string, kind: string)

  function Parse(e: RawEvent): Result<Parsed> {
    if e.time.None? then Err(MissingField("time"))
    else if e.key.None? then Err(MissingField("key"))
    else if e.kind.None? then Err(MissingField("type"))
    else Ok(Parsed(e.time.value, e.key.value, e.kind.value))
  }

  /** Playback so far: strokes sent, keys held, and whether it raised. */
  datatype Played = Played(strokes: seq<Stroke>, held: set<string>, outcome: Outcome)

  /** One event of the for loop: wait for its time, then "down" presses,
      "up" releases, any other type does nothing. */
  function StepEvent(w: Played, e: RawEvent): Played {
    if w.outcome.Fail? then w
    else
      match Parse(e)
      case Err(err) => Played(w.strokes, w.held, Fail(err))
      case Ok(p) =>
        var waited := w.strokes + [WaitUntil(p.time)];
        if p.kind == "down" then Played(waited + [Down(p.key)], w.held + {p.key}, Pass)
        else if p.kind == "up" then Played(waited + [Up(p.key)], w.held - {p.key}, Pass)
        else Played(waited, w.held, Pass)
  }

  /** The events walked in list order from `held`. */
  function Walk(held: set<string>, events: seq<RawEvent>): Played {
    if events == [] then Played([], held, Pass)
    else StepEvent(Walk(held, events[..|events| - 1]), events[|events| - 1])
  }

  /** One event keeps the held set in step with the strokes sent. */
  lemma StepTracks(held: set<string>, w: Played, e: RawEvent)
    requires w.held == HeldAfter(held, w.strokes)
    ensures StepEvent(w, e).held == HeldAfter(held, StepEvent(w, e).strokes)
  {
    if w.outcome.Pass? && Parse(e).Ok? {
      var p := Parse(e).value;
      var waited := w.strokes + [WaitUntil(p.time)];
      HeldAfterSnoc(held, w.strokes, WaitUntil(p.time));
      if p.kind == "down" {
        HeldAfterSnoc(held, waited, Down(p.key));
      } else if p.kind == "up" {
        HeldAfterSnoc(held, waited, Up(p.key));
      }
    }
  }

  /** The held set of a walk is exactly what its strokes leave down. */
  lemma {:induction false} WalkTracksHeld(held: set<string>, events: seq<RawEvent>)
    ensures Walk(held, events).held == HeldAfter(held, Walk(held, events).strokes)
  {
    if events != [] {
      WalkTracksHeld(held, events[..|events| - 1]);
      StepTracks(held, Walk(held, events[..|events| - 1]), events[|events| - 1]);
    }
  }

  /** Stopping early only cuts the walk short: the strokes of a prefix of
      the events are a prefix of the strokes of all of them. */
  lemma {:induction false} WalkPrefix(held: set<string>, events: seq<RawEvent>, i: nat)
    requires i <= |events|
    ensures var a := Walk(held, events[..i]).strokes; var b := Walk(held, events).strokes;
      |a| <= |b| && b[..|a|] == a
  {
    if i < |events| {
      var init := events[..|events| - 1];
      assert init[..i] == events[..i];
      WalkPrefix(held, init, i);
    } else {
      assert events[..i] == events;
    }
  }

  /** Once an entry is malformed, later entries add nothing. */
  lemma {:induction false} WalkFailSticks(held: set<string>, events: seq<RawEvent>, i: nat)
    requires i <= |events| && Walk(held, events[..i]).outcome.Fail?
    ensures Walk(held, events) == Walk(held, events[..i])
  {
    if i < |events| {
      var init := events[..|events| - 1];
      assert init[..i] == events[..i];
      WalkFailSticks(held, init, i);
    } else {
      assert events[..i] == events;
    }
  }

  /** The key strokes among `strokes`, without the waits. */
  function KeyStrokes(strokes: seq<Stroke>): seq<Stroke> {
    if strokes == [] then []
    else
      KeyStrokes(strokes[..|strokes| - 1]) +
      (if strokes[|strokes| - 1].Down? || strokes[|strokes| - 1].Up? then [strokes[|strokes| - 1]] else [])
  }

  lemma KeyStrokesSnoc(a: seq<Stroke>, x: Stroke)
    ensures KeyStrokes(a + [x]) == KeyStrokes(a) + (if x.Down? || x.Up? then [x] else [])
  {
    assert (a + [x])[..|a|] == a;
  }

  /** The key strokes a recording stands for. */
  function AsStrokes(rs: seq<Recorder.Recorded>): seq<Stroke> {
    if rs == [] then []
    else
      var r := rs[|rs| - 1];
      AsStrokes(rs[..|rs| - 1]) + (if r.kind == "down" then [Down(r.key)] else if r.kind == "up" then [Up(r.key)] else [])
  }

  /** Played back, a recording presses and releases exactly the keys it
      recorded, in the order recorded, and raises nothing. */
  lemma {:induction false} ReplayRecording(held: set<string>, rs: seq<Recorder.Recorded>)
    ensures var w := Walk(held, Recorder.RawEvents(rs));
      w.outcome == Pass && KeyStrokes(w.strokes) == AsStrokes(rs)
  {
    if rs != [] {
      var init := rs[..|rs| - 1];
      var r := rs[|rs| - 1];
      var raw := Recorder.RawEvents(rs);
      assert raw[..|raw| - 1] == Recorder.RawEvents(init);
      ReplayRecording(held, init);
      var w0 := Walk(held, Recorder.RawEvents(init));
      var waited := w0.strokes + [WaitUntil(r.time)];
      KeyStrokesSnoc(w0.strokes, WaitUntil(r.time));
      if r.kind == "down" {
        KeyStrokesSnoc(waited, Down(r.key));
      } else if r.kind == "up" {
        KeyStrokesSnoc(waited, Up(r.key));
      }
    }
  }

  /** A recording made from hook events plays back as the down/up events
      the filter kept, in order. */
  lemma RecordThenPlay(keys: seq<string>, hook: seq<Recorder.HookEvent>, createdAt: string)
    ensures var doc := Recorder.SavedDocument(createdAt, Recorder.Captured(keys, hook).events);
      var w := Walk({}, doc.events.items);
      w.outcome == Pass && KeyStrokes(w.strokes) == AsStrokes(Recorder.Captured(keys, hook).events)
  {
    ReplayRecording({}, Recorder.Captured(keys, hook).events);
  }

  /** How many events _play_once examines: none when already stopped,
      otherwise those before the point where stop() lands, if it does. */
  function Examined(events: seq<RawEvent>, stopped: bool, stopAt: Option<nat>): nat {
    if stopped then 0
    else if stopAt.Some? && stopAt.value < |events| then stopAt.value
    else |events|
  }

  /** What _play_once does, from keyboard record `sent`, held set `held`
      and stop flag `stopped` to `sent'`, `held'`, `stopped'`: the events
      up to where stop() lands walked in order, then a key-up for each key
      of `released`, a listing of the keys still held, leaving none held,
      whether playback ended normally, early or by an exception. An empty
      list returns at once without releasing anything. */
  ghost predicate PlayedOnce(events: seq<RawEvent>, stopAt: Option<nat>, sent: seq<Stroke>, held: set<string>, stopped: bool,
                             sent': seq<Stroke>, held': set<string>, stopped': bool, o: Outcome, released: seq<string>)
  {
    var w := Walk(held, events[..Examined(events, stopped, stopAt)]);
    if events == [] && stopAt.None? then
      sent' == sent && held' == held && o == Pass && stopped' == stopped
    else
      sent' == sent + w.strokes + UpsOf(released) && Listing(released, w.held) &&
      held' == {} && o == w.outcome && stopped' == (stopped || (stopAt.Some? && w.outcome.Pass?))
  }

  /** A round of playback keeps the held set mirroring the keyboard. */
  lemma RoundTracks(events: seq<RawEvent>, stopAt: Option<nat>, sent: seq<Stroke>, held: set<string>, stopped: bool,
                    sent': seq<Stroke>, held': set<string>, stopped': bool, o: Outcome, released: seq<string>,
                    held0: set<string>, sent0: seq<Stroke>, trace: seq<Stroke>)
    returns (trace': seq<Stroke>)
    requires PlayedOnce(events, stopAt, sent, held, stopped, sent', held', stopped', o, released)
    requires sent == sent0 + trace && HeldAfter(held0, trace) == held
    ensures sent' == sent0 + trace' && HeldAfter(held0, trace') == held'
  {
    if events == [] && stopAt.None? {
      trace' := trace;
    } else {
      var played := events[..Examined(events, stopped, stopAt)];
      var w := Walk(held, played);
      ListingReleases(released, w.held);
      PlayTracked(held0, trace, played, UpsOf(released));
      trace' := trace + w.strokes + UpsOf(released);
      AppendAssoc(sent0, trace, w.strokes);
      AppendAssoc(sent0, trace + w.strokes, UpsOf(released));
    }
  }

  class MacroPlayer {
    const windowName: string
    const hwnd: int
    const keyboard: Keyboard
    const files: Files
    const bufferTime: real := 0.1
    var stopped: bool
    var macro: Option<Document>
    var events: seq<RawEvent>
    var pressedKeys: set<string>

    constructor (windowName: string, hwnd: int, keyboard: Keyboard, files: Files)
      ensures this.windowName == windowName && this.hwnd == hwnd
      ensures this.keyboard == keyboard && this.files == files
      ensures stopped && macro.None? && events == [] && pressedKeys == {}
    {
      this.windowName := windowName;
      this.hwnd := hwnd;
      this.keyboard := keyboard;
      this.files := files;
      stopped := true;
      macro := None;
      events := [];
      pressedKeys := {};
    }

    /** load: the file must exist and hold a mapping whose `events` is a
        list; then both the document and its events replace the old ones. */
    method Load(path: string) returns (o: Outcome)
      modifies this
      ensures path !in files.contents ==> o == Fail(FileNotFound(path))
      ensures path in files.contents && files.contents[path].NotMapping? ==> o == Fail(NotAMapping)
      ensures path in files.contents && files.contents[path].Mapping? && !files.contents[path].events.EventList? ==>
        o == Fail(InvalidMacro)
      ensures o.Fail? ==> macro == old(macro) && events == old(events)
      ensures o.Pass? <==> path in files.contents && files.contents[path].Mapping? && files.contents[path].events.EventList?
      ensures o.Pass? ==> macro == Some(files.contents[path]) && events == files.contents[path].events.items
      ensures stopped == old(stopped) && pressedKeys == old(pressedKeys)
    {
      if path !in files.contents {
        return Fail(FileNotFound(path));
      }
      var doc := files.contents[path];
      if doc.NotMapping? {
        return Fail(NotAMapping);
      }
      if !doc.events.EventList? {
        return Fail(InvalidMacro);
      }
      macro := Some(doc);
      events := doc.events.items;
      o := Pass;
    }

    /** _press_key: key down, and the key is held. */
    method PressKey(key: string)
      modifies this, keyboard
      ensures keyboard.sent == old(keyboard.sent) + [Down(key)] && pressedKeys == old(pressedKeys) + {key}
      ensures stopped == old(stopped) && events == old(events) && macro == old(macro)
    {
      keyboard.Send(Down(key));
      pressedKeys := pressedKeys + {key};
    }

    /** _release_key: key up, and the key is no longer held; a key that was
        not held leaves the set as it was. */
    method ReleaseKey(key: string)
      modifies this, keyboard
      ensures keyboard.sent == old(keyboard.sent) + [Up(key)] && pressedKeys == old(pressedKeys) - {key}
      ensures key !in old(pressedKeys) ==> pressedKeys == old(pressedKeys)
      ensures stopped == old(stopped) && events == old(events) && macro == old(macro)
    {
      keyboard.Send(Up(key));
      pressedKeys := pressedKeys - {key};
    }

    /** _release_all_keys: one key up for each held key, in the order
        list() gives them (`released`), and nothing held afterwards. */
    method ReleaseAllKeys() returns (ghost released: seq<string>)
      modifies this, keyboard
      ensures pressedKeys == {} && Listing(released, old(pressedKeys))
      ensures keyboard.sent == old(keyboard.sent) + UpsOf(released)
      ensures stopped == old(stopped) && events == old(events) && macro == old(macro)
    {
      ListingExists(pressedKeys);
      var keysToRelease :| Listing(keysToRelease, pressedKeys);
      ghost var sent0 := keyboard.sent;
      pressedKeys := {};
      for i := 0 to |keysToRelease|
        invariant keyboard.sent == sent0 + UpsOf(keysToRelease[..i])
        invariant pressedKeys == {} && stopped == old(stopped) && events == old(events) && macro == old(macro)
      {
        keyboard.Send(Up(keysToRelease[i]));
        assert keysToRelease[..i + 1][..i] == keysToRelease[..i];
      }
      assert keysToRelease[..|keysToRelease|] == keysToRelease;
      released := keysToRelease;
    }

    /** stop: raise the flag and release everything held. */
    method Stop() returns (ghost released: seq<string>)
      modifies this, keyboard
      ensures stopped && pressedKeys == {} && Listing(released, old(pressedKeys))
      ensures keyboard.sent == old(keyboard.sent) + UpsOf(released)
      ensures events == old(events) && macro == old(macro)
    {
      stopped := true;
      released := ReleaseAllKeys();
    }

    /** start: raises when no events are loaded, is a no-op when already
        running, and otherwise clears the flag and waits the buffer time;
        the playback thread it spawns is `Run`. */
    method Start() returns (o: Outcome)
      modifies this, keyboard
      ensures events == [] ==> o == Fail(NoMacroLoaded) && stopped == old(stopped) && keyboard.sent == old(keyboard.sent)
      ensures events != [] && !old(stopped) ==> o == Pass && !stopped && keyboard.sent == old(keyboard.sent)
      ensures events != [] && old(stopped) ==> o == Pass && !stopped && keyboard.sent == old(keyboard.sent) + [Rest(0.1)]
      ensures events == old(events) && macro == old(macro) && pressedKeys == old(pressedKeys)
    {
      if events == [] {
        return Fail(NoMacroLoaded);
      }
      if !stopped {
        return Pass;
      }
      stopped := false;
      keyboard.Send(Rest(bufferTime));
      o := Pass;
    }

    /** The for loop of _play_once over events[..n]: each examined event is
        one step of the walk. */
    method PlayEvents(evs: seq<RawEvent>, n: nat) returns (o: Outcome)
      requires n <= |evs|
      modifies this, keyboard
      ensures var w := Walk(old(pressedKeys), evs[..n]);
        keyboard.sent == old(keyboard.sent) + w.strokes && pressedKeys == w.held && o == w.outcome
      ensures stopped == old(stopped) && events == old(events) && macro == old(macro)
    {
      ghost var held0 := pressedKeys;
      ghost var sent0 := keyboard.sent;
      o := Pass;
      for i := 0 to n
        invariant var w := Walk(held0, evs[..i]);
          keyboard.sent == sent0 + w.strokes && pressedKeys == w.held && o == w.outcome && o.Pass?
        invariant stopped == old(stopped) && events == old(events) && macro == old(macro)
      {
        assert evs[..i + 1][..i] == evs[..i];
        ghost var w := Walk(held0, evs[..i]);
        var e := evs[i];
        match Parse(e)
        case Err(err) =>
          o := Fail(err);
          WalkFailSticks(held0, evs[..n], i + 1);
          assert evs[..n][..i + 1] == evs[..i + 1];
          return;
        case Ok(p) =>
          keyboard.Send(WaitUntil(p.time));
          if p.kind == "down" {
            PressKey(p.key);
          } else if p.kind == "up" {
            ReleaseKey(p.key);
          }
          AppendAssoc(sent0, w.strokes, [WaitUntil(p.time)]);
      }
    }

    /** _play_once, with stop() landing just before event `stopAt` is
        examined (or after the last one when `stopAt` is past the end), or
        not at all when `stopAt` is None. The events up to that point are
        walked in order; then every key still held is released, so no key
        stays held, whether playback ended normally, early or by an
        exception. An empty list returns at once. */
    method PlayOnce(stopAt: Option<nat>) returns (o: Outcome, ghost released: seq<string>)
      modifies this, keyboard
      ensures PlayedOnce(old(events), stopAt, old(keyboard.sent), old(pressedKeys), old(stopped),
                         keyboard.sent, pressedKeys, stopped, o, released)
      ensures events == old(events) && macro == old(macro)
    {
      var evs := events;
      released := [];
      if evs == [] {
        if stopAt.Some? {
          released := Stop();
        }
        return Pass, released;
      }
      var n := Examined(evs, stopped, stopAt);
      ghost var sent0 := keyboard.sent;
      o := PlayEvents(evs, n);
      ghost var mid := keyboard.sent;
      if o.Pass? && stopAt.Some? {
        released := Stop();
        ghost var none := ReleaseAllKeys();
        assert none == [];
      } else {
        released := ReleaseAllKeys();
      }
      ghost var w := Walk(old(pressedKeys), old(events)[..n]);
      AppendAssoc(sent0, w.strokes, UpsOf(released));
    }

    /** run: rounds of playback until stopped or a round raises; stop()
        lands in round k as `rounds[k]` says, and after the last round at
        the latest. On the way out the flag is raised and nothing is left
        held, so every key the player pressed has been released. */
    method Run(rounds: seq<Option<nat>>) returns (o: Outcome)
      modifies this, keyboard
      ensures stopped && pressedKeys == {}
      ensures |keyboard.sent| >= |old(keyboard.sent)| && keyboard.sent[..|old(keyboard.sent)|] == old(keyboard.sent)
      ensures HeldAfter(old(pressedKeys), keyboard.sent[|old(keyboard.sent)|..]) == {}
      ensures events == old(events) && macro == old(macro)
    {
      ghost var held0 := pressedKeys;
      ghost var sent0 := keyboard.sent;
      ghost var trace: seq<Stroke> := [];
      o := Pass;
      var k := 0;
      while !stopped && k < |rounds|
        invariant 0 <= k <= |rounds|
        invariant keyboard.sent == sent0 + trace && HeldAfter(held0, trace) == pressedKeys
        invariant events == old(events) && macro == old(macro)
      {
        o, trace := TrackedRound(rounds[k], held0, sent0, trace);
        k := k + 1;
        if o.Fail? {
          break;
        }
      }
      if !stopped && o.Pass? {
        trace := Released(held0, sent0, trace);
      }
      stopped := true;
      trace := Released(held0, sent0, trace);
      assert keyboard.sent[|sent0|..] == trace;
    }

    /** One round of playback, with the held set mirroring what `trace`
        leaves down. */
    method TrackedRound(stopAt: Option<nat>, ghost held0: set<string>, ghost sent0: seq<Stroke>, ghost trace: seq<Stroke>)
      returns (o: Outcome, ghost trace': seq<Stroke>)
      requires keyboard.sent == sent0 + trace && HeldAfter(held0, trace) == pressedKeys
      modifies this, keyboard
      ensures keyboard.sent == sent0 + trace' && HeldAfter(held0, trace') == pressedKeys
      ensures events == old(events) && macro == old(macro)
    {
      ghost var sent := keyboard.sent;
      ghost var held := pressedKeys;
      ghost var stopped0 := stopped;
      ghost var released;
      o, released := PlayOnce(stopAt);
      trace' := RoundTracks(events, stopAt, sent, held, stopped0, keyboard.sent, pressedKeys, stopped, o, released, held0, sent0, trace);
    }

    /** release_all_keys with the held set mirroring what `trace` leaves
        down: afterwards nothing is left down. */
    method Released(ghost held0: set<string>, ghost sent0: seq<Stroke>, ghost trace: seq<Stroke>) returns (ghost trace': seq<Stroke>)
      requires keyboard.sent == sent0 + trace && HeldAfter(held0, trace) == pressedKeys
      modifies this, keyboard
      ensures pressedKeys == {} && stopped == old(stopped) && events == old(events) && macro == old(macro)
      ensures keyboard.sent == sent0 + trace' && HeldAfter(held0, trace') == {}
    {
      ghost var released := ReleaseAllKeys();
      ListingReleases(released, HeldAfter(held0, trace));
      ReleaseTracked(held0, trace, UpsOf(released));
      trace' := trace + UpsOf(released);
    }
  }

  /** The constructor's window lookup: an error when no window matches. */
  method OpenPlayer(windows: seq<Input.Window>, windowName: string, keyboard: Keyboard, files: Files)
    returns (p: MacroPlayer?, o: Outcome)
    ensures o.Pass? <==> p != null
    ensures o.Fail? ==> o.error == WindowNotFound(windowName)
    ensures (forall i :: 0 <= i < |windows| ==> !Input.Matches(windows[i], windowName)) ==> o.Fail?
    ensures (exists i :: Input.FirstMatchAt(windows, windowName, i) && windows[i].handle != 0) ==> o.Pass?
    ensures p != null ==>
      fresh(p) && p.keyboard == keyboard && p.files == files && p.hwnd != 0 && p.stopped &&
      p.events == [] && p.pressedKeys == {} &&
      exists i :: Input.FirstMatchAt(windows, windowName, i) && windows[i].handle == p.hwnd
  {
    var found := Input.FindWindowByTitle(windows, windowName);
    if found.None? || found.value == 0 {
      return null, Fail(WindowNotFound(windowName));
    }
    p := new MacroPlayer(windowName, found.value, keyboard, files);
    o := Pass;
  }
}
