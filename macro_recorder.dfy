/** The keyboard macro recorder: a hook callback that keeps the down/up
    events of keys that are not control keys, stamped with their time
    relative to the first kept event, and start/stop/save around it. */
module Recorder {
  import opened Effects
  import opened MacroFiles

  /** What the keyboard hook reports. */
  datatype HookEvent = HookEvent(eventType: string, name: Option<string>, time: real)

  /** One recorded entry: relative time, key name, "down" or "up". */
  datatype Recorded = Recorded(time: real, key: string, kind: string)

  /** round(x, 4), with ties rounded up. */
  function Round4(x: real): real {
    (x * 10000.0 + 0.5).Floor as real / 10000.0
  }

  lemma Round4Monotone(x: real, y: real)
    requires x <= y
    ensures Round4(x) <= Round4(y)
  {
    assert (x * 10000.0 + 0.5).Floor <= (y * 10000.0 + 0.5).Floor;
  }

  /** The callback keeps an event iff it is a down or up event of a named
      key that is not one of the recorder's control keys. */
  predicate Accepted(keys: seq<string>, e: HookEvent) {
    (e.eventType == "down" || e.eventType == "up") && e.name.Some? && e.name.value !in keys
  }

  /** The entry for `e` relative to `t0`. */
  function Entry(t0: real, e: HookEvent): Recorded {
    Recorded(Round4(e.time - t0), if e.name.Some? then e.name.value else "", e.eventType)
  }

  /** What recording has gathered: `start_time` and `events`. */
  datatype Capture = Capture(start: Option<real>, events: seq<Recorded>)

  /** One call of the callback while recording. */
  function Stamp(keys: seq<string>, c: Capture, e: HookEvent): Capture {
    if !Accepted(keys, e) then c
    else
      var t0 := if c.start.Some? then c.start.value else e.time;
      Capture(Some(t0), c.events + [Entry(t0, e)])
  }

  /** The callbacks of one recording, from a fresh start. */
  function Captured(keys: seq<string>, evs: seq<HookEvent>): Capture {
    if evs == [] then Capture(None, [])
    else Stamp(keys, Captured(keys, evs[..|evs| - 1]), evs[|evs| - 1])
  }

  /** The events the filter lets through, in order. */
  function AcceptedOnly(keys: seq<string>, evs: seq<HookEvent>): seq<HookEvent> {
    if evs == [] then []
    else
      AcceptedOnly(keys, evs[..|evs| - 1]) +
      (if Accepted(keys, evs[|evs| - 1]) then [evs[|evs| - 1]] else [])
  }

  function Relative(t0: real, evs: seq<HookEvent>): seq<Recorded> {
    if evs == [] then [] else Relative(t0, evs[..|evs| - 1]) + [Entry(t0, evs[|evs| - 1])]
  }

  lemma {:induction false} AcceptedOnlyAccepted(keys: seq<string>, evs: seq<HookEvent>)
    ensures forall i :: 0 <= i < |AcceptedOnly(keys, evs)| ==> Accepted(keys, AcceptedOnly(keys, evs)[i])
  {
    if evs != [] {
      AcceptedOnlyAccepted(keys, evs[..|evs| - 1]);
    }
  }

  /** A recording is the filtered events, each stamped relative to the
      first one kept; `start_time` is that first one's time. */
  lemma {:induction false} CapturedIsFiltered(keys: seq<string>, evs: seq<HookEvent>)
    ensures var acc := AcceptedOnly(keys, evs);
      Captured(keys, evs) ==
        if acc == [] then Capture(None, []) else Capture(Some(acc[0].time), Relative(acc[0].time, acc))
  {
    if evs != [] {
      var init := evs[..|evs| - 1];
      var e := evs[|evs| - 1];
      CapturedIsFiltered(keys, init);
      var a := AcceptedOnly(keys, init);
      if Accepted(keys, e) {
        var acc := a + [e];
        assert acc[..|acc| - 1] == a;
        if a != [] {
          assert acc[0] == a[0];
        } else {
          assert Relative(e.time, acc) == Relative(e.time, []) + [Entry(e.time, e)];
        }
      } else {
        assert AcceptedOnly(keys, evs) == a;
      }
    }
  }

  /** The first recorded event is at relative time 0. */
  lemma FirstAtZero(keys: seq<string>, evs: seq<HookEvent>)
    requires Captured(keys, evs).events != []
    ensures Captured(keys, evs).events[0].time == 0.0
  {
    CapturedIsFiltered(keys, evs);
    var acc := AcceptedOnly(keys, evs);
    RelativeHead(acc[0].time, acc);
  }

  lemma {:induction false} RelativeHead(t0: real, evs: seq<HookEvent>)
    requires evs != []
    ensures |Relative(t0, evs)| == |evs| && Relative(t0, evs)[0] == Entry(t0, evs[0])
  {
    if |evs| > 1 {
      RelativeHead(t0, evs[..|evs| - 1]);
    } else {
      assert Relative(t0, evs) == Relative(t0, []) + [Entry(t0, evs[0])];
    }
  }

  predicate NonDecreasingInput(evs: seq<HookEvent>) {
    forall i, j :: 0 <= i <= j < |evs| ==> evs[i].time <= evs[j].time
  }

  predicate NonDecreasingTimes(rs: seq<Recorded>) {
    forall i, j :: 0 <= i <= j < |rs| ==> rs[i].time <= rs[j].time
  }

  /** Every recorded time is at most that of an input time bound, and the
      start is set exactly when something was recorded. */
  lemma {:induction false} CapturedBounded(keys: seq<string>, evs: seq<HookEvent>, t: real)
    requires forall i :: 0 <= i < |evs| ==> evs[i].time <= t
    ensures var c := Captured(keys, evs);
      && (c.start.None? <==> c.events == [])
      && (c.start.Some? ==> forall i :: 0 <= i < |c.events| ==> c.events[i].time <= Round4(t - c.start.value))
  {
    if evs != [] {
      var init := evs[..|evs| - 1];
      var e := evs[|evs| - 1];
      CapturedBounded(keys, init, t);
      var c0 := Captured(keys, init);
      if Accepted(keys, e) {
        var t0 := if c0.start.Some? then c0.start.value else e.time;
        Round4Monotone(e.time - t0, t - t0);
      }
    }
  }

  /** With hook times that never go back, recorded times never go back. */
  lemma {:induction false} TimesNonDecreasing(keys: seq<string>, evs: seq<HookEvent>)
    requires NonDecreasingInput(evs)
    ensures NonDecreasingTimes(Captured(keys, evs).events)
  {
    if evs != [] {
      var init := evs[..|evs| - 1];
      var e := evs[|evs| - 1];
      TimesNonDecreasing(keys, init);
      var c0 := Captured(keys, init);
      if Accepted(keys, e) && c0.start.Some? {
        CapturedBounded(keys, init, e.time);
        var c := Captured(keys, evs);
        assert c.events == c0.events + [Entry(c0.start.value, e)];
        assert forall i :: 0 <= i < |c0.events| ==> c.events[i].time <= c.events[|c.events| - 1].time;
      } else if Accepted(keys, e) {
        CapturedBounded(keys, init, e.time);
      }
    }
  }

  /** os.path.join on Windows for a plain file name. */
  function JoinPath(dir: string, name: string): string {
    if dir == [] then name
    else if dir[|dir| - 1] in {'/', '\\', ':'} then dir + name
    else dir + "\\" + name
  }

  lemma JoinPathNonEmpty(dir: string, name: string)
    requires name != []
    ensures JoinPath(dir, name) != [] && JoinPath(dir, name)[|JoinPath(dir, name)| - |name|..] == name
  {
  }

  /** An entry in the form the player reads back. */
  function ToRaw(r: Recorded): RawEvent {
    RawEvent(Some(r.time), Some(r.key), Some(r.kind))
  }

  function RawEvents(rs: seq<Recorded>): seq<RawEvent> {
    if rs == [] then [] else RawEvents(rs[..|rs| - 1]) + [ToRaw(rs[|rs| - 1])]
  }

  /** The document save writes: a description, the creation time and the
      events. */
  function SavedDocument(createdAt: string, events: seq<Recorded>): (d: Document)
    ensures d.Mapping? && d.events == EventList(RawEvents(events))
    ensures d.meta == Some(Meta("Recorded keyboard macro", createdAt))
  {
    Mapping(Some(Meta("Recorded keyboard macro", createdAt)), EventList(RawEvents(events)))
  }

  class MacroRecorder {
    const dirName: string
    const keys: seq<string>
    const files: Files
    var events: seq<Recorded>
    var hooked: bool
    var startTime: Option<real>
    var isRecording: bool
    var lastSavedPath: Option<string>

    ghost function CaptureOf(): Capture
      reads this
    {
      Capture(startTime, events)
    }

    constructor (dirName: string, keys: seq<string>, files: Files)
      ensures this.dirName == dirName && this.keys == keys && this.files == files
      ensures events == [] && !hooked && startTime.None? && !isRecording && lastSavedPath.None?
    {
      this.dirName := dirName;
      this.keys := keys;
      this.files := files;
      events := [];
      hooked := false;
      startTime := None;
      isRecording := false;
      lastSavedPath := None;
    }

    /** _callback: ignored unless recording; otherwise one step of Stamp. */
    method Callback(e: HookEvent)
      modifies this
      ensures old(isRecording) ==> CaptureOf() == Stamp(keys, old(CaptureOf()), e)
      ensures !old(isRecording) ==> CaptureOf() == old(CaptureOf())
      ensures isRecording == old(isRecording) && hooked == old(hooked) && lastSavedPath == old(lastSavedPath)
    {
      if !isRecording {
        return;
      }
      if e.eventType != "down" && e.eventType != "up" {
        return;
      }
      var name := e.name;
      if name.Some? && name.value in keys {
        return;
      }
      if name.None? {
        return;
      }
      if startTime.None? {
        startTime := Some(e.time);
      }
      var relTime := e.time - startTime.value;
      events := events + [Recorded(Round4(relTime), name.value, e.eventType)];
    }

    /** start: a no-op while recording; otherwise a fresh, hooked recording. */
    method Start()
      modifies this
      ensures old(isRecording) ==>
        CaptureOf() == old(CaptureOf()) && isRecording && hooked == old(hooked)
      ensures !old(isRecording) ==> CaptureOf() == Capture(None, []) && isRecording && hooked
      ensures lastSavedPath == old(lastSavedPath)
    {
      if isRecording {
        return;
      }
      events := [];
      startTime := None;
      hooked := true;
      isRecording := true;
    }

    /** stop: unhooks and ends recording, saving nothing; a warning and no
        change when not recording. */
    method Stop()
      modifies this
      ensures !isRecording && CaptureOf() == old(CaptureOf()) && lastSavedPath == old(lastSavedPath)
      ensures old(isRecording) ==> !hooked
      ensures !old(isRecording) ==> hooked == old(hooked)
    {
      if !isRecording {
        return;
      }
      if hooked {
        hooked := false;
      }
      isRecording := false;
    }

    /** save: "" and no write when nothing was recorded; otherwise the
        recording written to record_<stamp>.yaml under the directory. */
    method Save(stamp: string, createdAt: string) returns (path: string)
      modifies this, files
      ensures events == old(events) && isRecording == old(isRecording) && hooked == old(hooked)
      ensures old(events) == [] ==>
        path == "" && files.contents == old(files.contents) && lastSavedPath == old(lastSavedPath)
      ensures old(events) != [] ==>
        path == JoinPath(dirName, "record_" + stamp + ".yaml") && lastSavedPath == Some(path) &&
        files.contents == old(files.contents)[path := SavedDocument(createdAt, events)]
    {
      if events == [] {
        return "";
      }
      var filename := "record_" + stamp + ".yaml";
      path := JoinPath(dirName, filename);
      files.Write(path, SavedDocument(createdAt, events));
      lastSavedPath := Some(path);
    }

    /** stop_and_save: None when not recording; otherwise stop, save, and
        the path, or None when nothing was saved. */
    method StopAndSave(stamp: string, createdAt: string) returns (r: Option<string>)
      modifies this, files
      ensures !old(isRecording) ==>
        r.None? && files.contents == old(files.contents) && isRecording == old(isRecording) &&
        lastSavedPath == old(lastSavedPath)
      ensures old(isRecording) ==> !isRecording && !hooked
      ensures old(isRecording) && old(events) == [] ==>
        r.None? && files.contents == old(files.contents) && lastSavedPath == old(lastSavedPath)
      ensures old(isRecording) && old(events) != [] ==>
        var path := JoinPath(dirName, "record_" + stamp + ".yaml");
        r == Some(path) && lastSavedPath == Some(path) &&
        files.contents == old(files.contents)[path := SavedDocument(createdAt, old(events))]
      ensures events == old(events)
    {
      if !isRecording {
        return None;
      }
      Stop();
      var path := Save(stamp, createdAt);
      if path != [] {
        r := Some(path);
      } else {
        r := None;
      }
      JoinPathNonEmpty(dirName, "record_" + stamp + ".yaml");
    }
  }
}
