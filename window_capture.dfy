/** WindowCapture: finds the game window by title, derives the client
    area's size and screen offset from its rectangle, and runs a worker that
    keeps the latest screenshot of that area in a slot until the window
    closes or a stop is requested. The desktop (its windows and their
    rectangles) and the pixels GDI copies are inputs. */
module Capture {
  import opened Effects
  import opened Frames

  /** GetWindowRect's (left, top, right, bottom). */
  datatype Rect = Rect(left: int, top: int, right: int, bottom: int)

  /** A top-level window as FindWindow and GetWindowRect see it. */
  datatype TopWindow = TopWindow(handle: int, title: string, rect: Rect)

  /** The desktop at one moment: its top-level windows in Z order. */
  type Desktop = seq<TopWindow>

  const BorderPixels: int := 8
  const TitlebarPixels: int := 30

  /** FindWindow(None, title): the handle of the first window with exactly
      that title, 0 when there is none. */
  function FindWindow(d: Desktop, title: string): (h: int)
    ensures h != 0 ==> exists i :: 0 <= i < |d| && d[i].title == title && d[i].handle == h
    ensures (forall i :: 0 <= i < |d| ==> d[i].title != title) ==> h == 0
  {
    if d == [] then 0
    else if d[0].title == title then d[0].handle
    else FindWindow(d[1..], title)
  }

  /** GetWindowRect: the rectangle of the first window with that handle; a
      handle no window has raises. */
  function GetWindowRect(d: Desktop, handle: int): (r: Result<Rect>)
    ensures r.Ok? <==> exists i :: 0 <= i < |d| && d[i].handle == handle
    ensures r.Ok? ==> exists i :: 0 <= i < |d| && d[i].handle == handle && d[i].rect == r.value
    ensures r.Err? ==> r.error == InvalidHandle(handle)
  {
    if d == [] then Err(InvalidHandle(handle))
    else if d[0].handle == handle then Ok(d[0].rect)
    else
      var r := GetWindowRect(d[1..], handle);
      assert forall i :: 0 <= i < |d| - 1 ==> d[1..][i] == d[i + 1];
      if r.Ok? then
        ghost var i :| 0 <= i < |d[1..]| && d[1..][i].handle == handle && d[1..][i].rect == r.value;
        assert d[i + 1].handle == handle && d[i + 1].rect == r.value;
        r
      else r
  }

  /** The capture geometry: client width and height and where the client
      area starts, in the window and on the screen. */
  datatype Geometry = Geometry(w: int, h: int, croppedX: int, croppedY: int, offsetX: int, offsetY: int)

  /** _init_window_metrics on a window rectangle: the border is cut from
      left, right and bottom, the title bar from the top. */
  function MetricsOf(r: Rect): Geometry {
    var rawW := r.right - r.left;
    var rawH := r.bottom - r.top;
    Geometry(rawW - BorderPixels * 2, rawH - TitlebarPixels - BorderPixels,
             BorderPixels, TitlebarPixels, r.left + BorderPixels, r.top + TitlebarPixels)
  }

  /** get_screen_position: a client-area position on the screen. */
  function ToScreen(g: Geometry, x: int, y: int): (int, int) {
    (x + g.offsetX, y + g.offsetY)
  }

  /** The client area is the window less 8 pixels of border on the left,
      right and bottom and 30 of title bar on top; it starts at (8, 30) in
      the window, and a client position lies on the screen that far into
      the window rectangle. */
  lemma MetricsCutBorder(r: Rect, x: int, y: int)
    ensures var g := MetricsOf(r);
      g.w + 16 == r.right - r.left && g.h + 38 == r.bottom - r.top &&
      (g.croppedX, g.croppedY) == (8, 30) &&
      (g.offsetX, g.offsetY) == (r.left + g.croppedX, r.top + g.croppedY) &&
      ToScreen(g, x, y) == (r.left + 8 + x, r.top + 30 + y)
  {
  }

  /** Every pixel of the client area maps to a screen position strictly
      inside the window rectangle, clear of the border and the title bar. */
  lemma ClientInsideWindow(r: Rect, x: int, y: int)
    requires 0 <= x < MetricsOf(r).w && 0 <= y < MetricsOf(r).h
    ensures var (sx, sy) := ToScreen(MetricsOf(r), x, y);
      r.left + BorderPixels <= sx < r.right - BorderPixels &&
      r.top + TitlebarPixels <= sy < r.bottom - BorderPixels
  {
  }

  /** get_screen_position is undone by subtracting the offset. */
  lemma ToScreenInjective(g: Geometry, x: int, y: int, x': int, y': int)
    ensures ToScreen(g, x, y) == ToScreen(g, x', y') <==> x == x' && y == y'
  {
  }

  /** One pass of the worker loop: the window is looked up again; gone, the
      worker stops and clears the handle; present, the handle is refreshed,
      the screenshot replaced, and a stop requested meanwhile is seen at
      the next test of the loop. */
  datatype Tick = Tick(desktop: Desktop, content: Pixels, stopAfter: bool)

  /** The state the worker touches: the flag, the handle and the slot, and
      whether the thread has ended on an exception. */
  datatype Slots = Slots(stopped: bool, hwnd: Option<int>, shot: Option<Pixels>, raised: bool)

  /** get_screenshot can build a bitmap of the client size only when both
      sides are positive. */
  predicate ShapeOk(g: Geometry) {
    g.w > 0 && g.h > 0
  }

  /** The pixels GDI copies have the client size. */
  predicate Fits(g: Geometry, content: Pixels) {
    ShapeOk(g) ==> Height(content) == g.h && Width(content) == g.w
  }

  /** The loop has been left: by the flag, or by an exception. */
  predicate Ended(s: Slots) {
    s.stopped || s.raised
  }

  /** One pass: the window gone, the flag is set; found, the handle is
      refreshed and the screenshot replaced, unless the client size makes
      get_screenshot raise, which ends the thread with the flag untouched. */
  function CaptureStep(s: Slots, title: string, g: Geometry, t: Tick): Slots {
    var h := FindWindow(t.desktop, title);
    if h == 0 then Slots(true, None, s.shot, false)
    else if !ShapeOk(g) then Slots(t.stopAfter, Some(h), s.shot, true)
    else Slots(t.stopAfter, Some(h), Some(t.content), false)
  }

  /** `while not self.stopped` over the passes in order. */
  function Capturing(s: Slots, title: string, g: Geometry, ticks: seq<Tick>): Slots {
    if ticks == [] then s
    else
      var p := Capturing(s, title, g, ticks[..|ticks| - 1]);
      if Ended(p) then p else CaptureStep(p, title, g, ticks[|ticks| - 1])
  }

  /** A worker that has ended does nothing, whatever comes next. */
  lemma {:induction false} CapturingStopped(s: Slots, title: string, g: Geometry, ticks: seq<Tick>)
    requires Ended(s)
    ensures Capturing(s, title, g, ticks) == s
  {
    if ticks != [] {
      CapturingStopped(s, title, g, ticks[..|ticks| - 1]);
    }
  }

  /** Once the worker has ended, later passes change nothing. */
  lemma {:induction false} CapturingSticks(s: Slots, title: string, g: Geometry, ticks: seq<Tick>, i: nat)
    requires i <= |ticks| && Ended(Capturing(s, title, g, ticks[..i]))
    ensures Capturing(s, title, g, ticks) == Capturing(s, title, g, ticks[..i])
  {
    if i < |ticks| {
      assert ticks[..|ticks| - 1][..i] == ticks[..i];
      CapturingSticks(s, title, g, ticks[..|ticks| - 1], i);
    } else {
      assert ticks[..i] == ticks;
    }
  }

  /** A window that is gone stops the worker with no handle and leaves the
      last screenshot in the slot. */
  lemma WindowGoneStops(s: Slots, title: string, g: Geometry, t: Tick)
    requires forall i :: 0 <= i < |t.desktop| ==> t.desktop[i].title != title
    ensures CaptureStep(s, title, g, t) == Slots(true, None, s.shot, false)
  {
  }

  /** The slot only ever holds what a pass copied while the window was
      there: the screenshot after the passes is the one before, or the
      pixels of a pass that found the window. */
  lemma {:induction false} ShotFromSomePass(s: Slots, title: string, g: Geometry, ticks: seq<Tick>)
    ensures var r := Capturing(s, title, g, ticks);
      r.shot == s.shot ||
      (ShapeOk(g) &&
       exists i :: 0 <= i < |ticks| && FindWindow(ticks[i].desktop, title) != 0 && r.shot == Some(ticks[i].content))
  {
    if ticks != [] {
      var init := ticks[..|ticks| - 1];
      ShotFromSomePass(s, title, g, init);
      var p := Capturing(s, title, g, init);
      if p.shot != s.shot {
        var i :| 0 <= i < |init| && FindWindow(init[i].desktop, title) != 0 && p.shot == Some(init[i].content);
        assert ticks[i] == init[i];
      }
    }
  }

  /** With GDI handing over pixels of the client size, every screenshot the
      worker stores is a (h, w) image of that size. */
  lemma ShotHasClientSize(s: Slots, title: string, g: Geometry, ticks: seq<Tick>)
    requires forall i :: 0 <= i < |ticks| ==> Fits(g, ticks[i].content)
    ensures var r := Capturing(s, title, g, ticks);
      r.shot == s.shot || (r.shot.Some? && Height(r.shot.value) == g.h && Width(r.shot.value) == g.w)
  {
    ShotFromSomePass(s, title, g, ticks);
  }

  /** A client size that get_screenshot cannot capture ends the thread at
      the first pass that finds the window, with no screenshot stored. */
  lemma {:induction false} BadShapeNoShot(s: Slots, title: string, g: Geometry, ticks: seq<Tick>)
    requires !ShapeOk(g)
    ensures Capturing(s, title, g, ticks).shot == s.shot
  {
    if ticks != [] {
      BadShapeNoShot(s, title, g, ticks[..|ticks| - 1]);
    }
  }

  /** The last pass of a worker still running before it: a window that is
      gone stops it with no handle; a window found leaves its handle, the
      flag set exactly when a stop was requested, and either its pixels or,
      for a size GDI cannot capture, an exception that ends the thread. */
  lemma LastPass(s: Slots, title: string, g: Geometry, ticks: seq<Tick>)
    requires ticks != [] && !Ended(Capturing(s, title, g, ticks[..|ticks| - 1]))
    ensures var r := Capturing(s, title, g, ticks);
      var t := ticks[|ticks| - 1];
      var h := FindWindow(t.desktop, title);
      (h == 0 ==> r.stopped && r.hwnd == None && !r.raised) &&
      (h != 0 ==> r.hwnd == Some(h) && r.stopped == t.stopAfter && (r.raised <==> !ShapeOk(g))) &&
      (h != 0 && ShapeOk(g) ==> r.shot == Some(t.content)) &&
      (h != 0 && !ShapeOk(g) ==> r.shot == Capturing(s, title, g, ticks[..|ticks| - 1]).shot)
  {
  }

  class WindowCapture {
    const windowName: string
    const bufferTime: real := 0.1

    var stopped: bool
    var screenshot: array2?<int>
    var hwnd: Option<int>
    var w: int
    var h: int
    var croppedX: int
    var croppedY: int
    var offsetX: int
    var offsetY: int
    /** How many worker threads start() has spawned. */
    var workersStarted: nat

    /** The fields as __init__ sets them before looking for the window. */
    constructor (windowName: string)
      ensures this.windowName == windowName
      ensures stopped && screenshot == null && hwnd == None
      ensures GeometryOf() == Geometry(0, 0, 0, 0, 0, 0) && workersStarted == 0
    {
      this.windowName := windowName;
      stopped := true;
      screenshot := null;
      hwnd := None;
      w, h := 0, 0;
      croppedX, croppedY := 0, 0;
      offsetX, offsetY := 0, 0;
      workersStarted := 0;
    }

    function GeometryOf(): Geometry
      reads this
    {
      Geometry(w, h, croppedX, croppedY, offsetX, offsetY)
    }

    /** `if not self.hwnd`: no handle, or the null handle. */
    predicate HasHandle()
      reads this
    {
      hwnd.Some? && hwnd.value != 0
    }

    /** The worker's state as a value. */
    function SlotsOf(raised: bool): Slots
      reads this, screenshot
    {
      Slots(stopped, hwnd, if screenshot == null then None else Some(Snapshot(screenshot)), raised)
    }

    /** _init_window_handle: the handle is stored whatever FindWindow
        returned; 0 raises. */
    method InitWindowHandle(d: Desktop) returns (o: Outcome)
      modifies this
      ensures hwnd == Some(FindWindow(d, windowName))
      ensures o == if FindWindow(d, windowName) == 0 then Fail(WindowNotFound(windowName)) else Pass
      ensures stopped == old(stopped) && screenshot == old(screenshot) && GeometryOf() == old(GeometryOf())
      ensures workersStarted == old(workersStarted)
    {
      hwnd := Some(FindWindow(d, windowName));
      if hwnd.value == 0 {
        return Fail(WindowNotFound(windowName));
      }
      o := Pass;
    }

    /** _init_window_metrics: raises without a handle; otherwise the
        geometry of the handle's rectangle. */
    method InitWindowMetrics(d: Desktop) returns (o: Outcome)
      modifies this
      ensures !old(HasHandle()) ==> o == Fail(NoWindowHandle) && GeometryOf() == old(GeometryOf())
      ensures old(HasHandle()) ==>
        var r := GetWindowRect(d, old(hwnd).value);
        (r.Err? ==> o == Fail(r.error) && GeometryOf() == old(GeometryOf())) &&
        (r.Ok? ==> o == Pass && GeometryOf() == MetricsOf(r.value))
      ensures stopped == old(stopped) && screenshot == old(screenshot) && hwnd == old(hwnd)
      ensures workersStarted == old(workersStarted)
    {
      if !HasHandle() {
        return Fail(NoWindowHandle);
      }
      var rect := GetWindowRect(d, hwnd.value);
      if rect.Err? {
        return Fail(rect.error);
      }
      var r := rect.value;
      var rawW := r.right - r.left;
      var rawH := r.bottom - r.top;
      w := rawW - BorderPixels * 2;
      h := rawH - TitlebarPixels - BorderPixels;
      croppedX := BorderPixels;
      croppedY := TitlebarPixels;
      offsetX := r.left + croppedX;
      offsetY := r.top + croppedY;
      o := Pass;
    }

    /** track_window_closed: true, with the handle cleared, exactly when the
        window is no longer found; otherwise the handle is refreshed. */
    method TrackWindowClosed(d: Desktop) returns (closed: bool)
      modifies this
      ensures closed <==> FindWindow(d, windowName) == 0
      ensures hwnd == if closed then None else Some(FindWindow(d, windowName))
      ensures stopped == old(stopped) && screenshot == old(screenshot) && GeometryOf() == old(GeometryOf())
      ensures workersStarted == old(workersStarted)
    {
      var found := FindWindow(d, windowName);
      if found == 0 {
        hwnd := None;
        return true;
      }
      hwnd := Some(found);
      closed := false;
    }

    /** get_screenshot: raises without a handle, and when the client size
        is not positive; otherwise a new (h, w) buffer with the client-area
        pixels GDI copied. */
    method GetScreenshot(content: Pixels) returns (img: array2?<int>, o: Outcome)
      requires Fits(GeometryOf(), content)
      ensures o.Pass? <==> HasHandle() && ShapeOk(GeometryOf())
      ensures !HasHandle() ==> o == Fail(NoWindowHandle)
      ensures HasHandle() && !ShapeOk(GeometryOf()) ==> o == Fail(InvalidShape(h, w))
      ensures o.Fail? ==> img == null
      ensures o.Pass? ==> img != null && fresh(img) && Snapshot(img) == content && img.Length0 == h && img.Length1 == w
    {
      if !HasHandle() {
        return null, Fail(NoWindowHandle);
      }
      if w <= 0 || h <= 0 {
        return null, Fail(InvalidShape(h, w));
      }
      img := FromPixels(content);
      o := Pass;
    }

    /** get_screen_position. */
    function ScreenPosition(x: int, y: int): (p: (int, int))
      reads this
      ensures p == ToScreen(GeometryOf(), x, y)
    {
      (x + offsetX, y + offsetY)
    }

    /** get_window_size: the client area's width and height. */
    function WindowSize(): (s: (int, int))
      reads this
      ensures s == (GeometryOf().w, GeometryOf().h)
    {
      (w, h)
    }

    /** start: nothing when the worker is already running; otherwise the
        flag is cleared for the worker to start. */
    method Start()
      modifies this
      ensures stopped == false
      ensures workersStarted == old(workersStarted) + (if old(stopped) then 1 else 0)
      ensures hwnd == old(hwnd) && screenshot == old(screenshot) && GeometryOf() == old(GeometryOf())
    {
      if !stopped {
        return;
      }
      stopped := false;
      workersStarted := workersStarted + 1;
    }

    method Stop()
      modifies this
      ensures stopped
      ensures hwnd == old(hwnd) && screenshot == old(screenshot) && GeometryOf() == old(GeometryOf())
      ensures workersStarted == old(workersStarted)
    {
      stopped := true;
    }

    /** One pass of _run: the window gone, the flag is set and the loop
        left; otherwise the screenshot is stored, and a stop that lands
        before the next test is seen there. */
    method CapturePass(t: Tick) returns (o: Outcome)
      requires !stopped && Fits(GeometryOf(), t.content)
      modifies this
      ensures SlotsOf(o.Fail?) == CaptureStep(old(SlotsOf(false)), windowName, GeometryOf(), t)
      ensures o.Fail? ==> o.error == InvalidShape(h, w)
      ensures screenshot == old(screenshot) || fresh(screenshot)
      ensures GeometryOf() == old(GeometryOf())
      ensures workersStarted == old(workersStarted)
    {
      var closed := TrackWindowClosed(t.desktop);
      if closed {
        stopped := true;
        return Pass;
      }
      var img;
      img, o := GetScreenshot(t.content);
      if o.Pass? {
        screenshot := img;
      }
      if t.stopAfter {
        stopped := true;
      }
    }

    /** _run over the passes it gets to make. */
    method RunWorker(ticks: seq<Tick>) returns (o: Outcome)
      requires forall i :: 0 <= i < |ticks| ==> Fits(GeometryOf(), ticks[i].content)
      modifies this
      ensures SlotsOf(o.Fail?) == Capturing(old(SlotsOf(false)), windowName, GeometryOf(), ticks)
      ensures o.Fail? ==> o.error == InvalidShape(h, w)
      ensures screenshot == old(screenshot) || fresh(screenshot)
      ensures GeometryOf() == old(GeometryOf())
      ensures workersStarted == old(workersStarted)
    {
      ghost var s0 := SlotsOf(false);
      var g := GeometryOf();
      var i := 0;
      o := Pass;
      while i < |ticks| && !stopped
        invariant 0 <= i <= |ticks| && o == Pass
        invariant SlotsOf(false) == Capturing(s0, windowName, g, ticks[..i])
        invariant screenshot == old(screenshot) || fresh(screenshot)
        invariant GeometryOf() == g
        invariant workersStarted == old(workersStarted)
      {
        assert ticks[..i + 1][..i] == ticks[..i];
        o := CapturePass(ticks[i]);
        i := i + 1;
        if o.Fail? {
          break;
        }
      }
      if i < |ticks| || o.Fail? {
        CapturingSticks(s0, windowName, g, ticks, i);
      } else {
        assert ticks[..i] == ticks;
      }
    }
  }

  /** The constructor: the window must be found and its rectangle read. */
  method Open(d: Desktop, windowName: string) returns (cap: WindowCapture?, o: Outcome)
    ensures o.Pass? <==> cap != null
    ensures FindWindow(d, windowName) == 0 ==> o == Fail(WindowNotFound(windowName))
    ensures FindWindow(d, windowName) != 0 ==>
      var r := GetWindowRect(d, FindWindow(d, windowName));
      (r.Err? ==> o == Fail(r.error)) &&
      (r.Ok? ==>
         cap != null && fresh(cap) && cap.windowName == windowName &&
         cap.stopped && cap.screenshot == null && cap.hwnd == Some(FindWindow(d, windowName)) &&
         cap.GeometryOf() == MetricsOf(r.value))
  {
    var c := new WindowCapture(windowName);
    o := c.InitWindowHandle(d);
    if o.Fail? {
      return null, o;
    }
    o := c.InitWindowMetrics(d);
    if o.Fail? {
      return null, o;
    }
    cap := c;
  }
}
