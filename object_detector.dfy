/** ObjectDetector: template matching in a worker. The main loop leaves the
    latest screenshot in a slot; each pass of the worker copies it, scores
    it against the template (greyscale conversion and matchTemplate, the
    `matcher` here) and turns the cells scoring at least the threshold into
    detection records, which replace the previous ones. */
module Detector {
  import opened Effects
  import opened Frames

  /** matchTemplate's result: one score per template position, rows first. */
  type Scores = seq<seq<real>>

  /** One detection record: the top-left corner, the template size and
      the centre. */
  datatype Detection = Detection(x: int, y: int, w: int, h: int, centerX: int, centerY: int)

  /** A position (x, y) comes before another in row-major order. */
  predicate Before(a: (int, int), b: (int, int)) {
    a.1 < b.1 || (a.1 == b.1 && a.0 < b.0)
  }

  /** The positions of row `y` scoring at least the threshold, left to right. */
  function RowHits(row: seq<real>, y: int, threshold: real): seq<(int, int)> {
    if row == [] then []
    else
      var last := if row[|row| - 1] >= threshold then [(|row| - 1, y)] else [];
      RowHits(row[..|row| - 1], y, threshold) + last
  }

  /** np.where(result >= threshold), zipped into (x, y): row by row. */
  function Hits(grid: Scores, threshold: real): seq<(int, int)> {
    if grid == [] then []
    else Hits(grid[..|grid| - 1], threshold) + RowHits(grid[|grid| - 1], |grid| - 1, threshold)
  }

  /** Every position of `r` is a cell of `grid` scoring at least the
      threshold. */
  predicate Sound(grid: Scores, threshold: real, r: seq<(int, int)>) {
    forall k :: 0 <= k < |r| ==>
      0 <= r[k].1 < |grid| && 0 <= r[k].0 < |grid[r[k].1]| && grid[r[k].1][r[k].0] >= threshold
  }

  /** Every cell of `grid` scoring at least the threshold is in `r`. */
  predicate Complete(grid: Scores, threshold: real, r: seq<(int, int)>) {
    forall x, y :: 0 <= y < |grid| && 0 <= x < |grid[y]| && grid[y][x] >= threshold ==> (x, y) in r
  }

  /** `r` is in strictly increasing row-major order, so each position once. */
  predicate RowMajor(r: seq<(int, int)>) {
    forall k, l :: 0 <= k < l < |r| ==> Before(r[k], r[l])
  }

  /** The positions of `r` are cells of `row`, in row `y`, scoring at least
      the threshold, strictly left to right. */
  predicate RowSound(row: seq<real>, y: int, threshold: real, r: seq<(int, int)>) {
    (forall k :: 0 <= k < |r| ==> r[k].1 == y && 0 <= r[k].0 < |row| && row[r[k].0] >= threshold) &&
    (forall k, l :: 0 <= k < l < |r| ==> r[k].0 < r[l].0)
  }

  predicate RowComplete(row: seq<real>, y: int, threshold: real, r: seq<(int, int)>) {
    forall x :: 0 <= x < |row| && row[x] >= threshold ==> (x, y) in r
  }

  /** A row's hits are exactly its cells at or above the threshold. */
  lemma {:induction false} RowHitsExact(row: seq<real>, y: int, threshold: real)
    ensures RowSound(row, y, threshold, RowHits(row, y, threshold))
    ensures RowComplete(row, y, threshold, RowHits(row, y, threshold))
  {
    if row != [] {
      var init := row[..|row| - 1];
      var n := |row| - 1;
      RowHitsExact(init, y, threshold);
      var a := RowHits(init, y, threshold);
      var last := if row[n] >= threshold then [(n, y)] else [];
      var r: seq<(int, int)> := a + last;
      assert RowHits(row, y, threshold) == r;
      assert forall x :: 0 <= x < |init| ==> init[x] == row[x];
      forall k | 0 <= k < |r|
        ensures r[k].1 == y && 0 <= r[k].0 < |row| && row[r[k].0] >= threshold
      {
        if k < |a| {
          assert r[k] == a[k];
        } else {
          assert r[k] == (n, y);
        }
      }
      forall k, l | 0 <= k < l < |r|
        ensures r[k].0 < r[l].0
      {
        if l < |a| {
          assert r[k] == a[k] && r[l] == a[l];
        } else {
          assert r[k] == a[k] && r[l] == (n, y);
        }
      }
      forall x | 0 <= x < |row| && row[x] >= threshold
        ensures (x, y) in r
      {
        if x < n {
          assert (x, y) in a;
        } else {
          assert r[|a|] == (n, y);
        }
      }
    }
  }

  /** The hits of the rows before the last, then those of the last row,
      are sound and in row-major order. */
  lemma SoundSnoc(grid: Scores, threshold: real, a: seq<(int, int)>, b: seq<(int, int)>)
    requires grid != []
    requires Sound(grid[..|grid| - 1], threshold, a) && RowMajor(a)
    requires RowSound(grid[|grid| - 1], |grid| - 1, threshold, b)
    ensures Sound(grid, threshold, a + b) && RowMajor(a + b)
  {
    var init := grid[..|grid| - 1];
    var y := |grid| - 1;
    assert forall i :: 0 <= i < |init| ==> init[i] == grid[i];
    var ab: seq<(int, int)> := a + b;
    forall k | 0 <= k < |ab|
      ensures 0 <= ab[k].1 < |grid| && 0 <= ab[k].0 < |grid[ab[k].1]|
      ensures grid[ab[k].1][ab[k].0] >= threshold
    {
      if k < |a| {
        assert ab[k] == a[k];
      } else {
        assert ab[k] == b[k - |a|];
      }
    }
    forall k, l | 0 <= k < l < |ab|
      ensures Before(ab[k], ab[l])
    {
      if l < |a| {
        assert ab[k] == a[k] && ab[l] == a[l];
      } else if k < |a| {
        assert ab[k] == a[k] && ab[l] == b[l - |a|];
      } else {
        assert ab[k] == b[k - |a|] && ab[l] == b[l - |a|];
      }
    }
  }

  /** The same for completeness. */
  lemma CompleteSnoc(grid: Scores, threshold: real, a: seq<(int, int)>, b: seq<(int, int)>)
    requires grid != []
    requires Complete(grid[..|grid| - 1], threshold, a)
    requires RowComplete(grid[|grid| - 1], |grid| - 1, threshold, b)
    ensures Complete(grid, threshold, a + b)
  {
    var init := grid[..|grid| - 1];
    assert forall i :: 0 <= i < |init| ==> init[i] == grid[i];
    forall x, y | 0 <= y < |grid| && 0 <= x < |grid[y]| && grid[y][x] >= threshold
      ensures (x, y) in a + b
    {
      if y < |init| {
        assert (x, y) in a;
      } else {
        assert (x, y) in b;
      }
    }
  }

  /** Every hit scores at least the threshold, every such cell is a hit,
      and the hits come in row-major order, each once. */
  lemma {:induction false} HitsExact(grid: Scores, threshold: real)
    ensures Sound(grid, threshold, Hits(grid, threshold))
    ensures Complete(grid, threshold, Hits(grid, threshold))
    ensures RowMajor(Hits(grid, threshold))
  {
    if grid != [] {
      var init := grid[..|grid| - 1];
      var y := |grid| - 1;
      HitsExact(init, threshold);
      RowHitsExact(grid[y], y, threshold);
      var a, b := Hits(init, threshold), RowHits(grid[y], y, threshold);
      SoundSnoc(grid, threshold, a, b);
      CompleteSnoc(grid, threshold, a, b);
    }
  }

  /** The record of a position: Python's `w // 2` on a template size. */
  function Record(p: (int, int), w: nat, h: nat): Detection {
    Detection(p.0, p.1, w, h, p.0 + w / 2, p.1 + h / 2)
  }

  /** _match_template on a score grid. */
  function MatchTemplate(grid: Scores, threshold: real, w: nat, h: nat): (r: seq<Detection>)
    ensures |r| == |Hits(grid, threshold)|
    ensures forall k :: 0 <= k < |r| ==>
      r[k].w == w && r[k].h == h && (r[k].x, r[k].y) == Hits(grid, threshold)[k]
  {
    var hits := Hits(grid, threshold);
    seq(|hits|, k requires 0 <= k < |hits| => Record(hits[k], w, h))
  }

  /** The records: one per cell at or above the threshold, in row-major
      order, each carrying the template size and the centre half the
      template (rounded down) from its corner. */
  lemma MatchTemplateRecords(grid: Scores, threshold: real, w: nat, h: nat)
    ensures var r := MatchTemplate(grid, threshold, w, h);
      (forall k :: 0 <= k < |r| ==>
        0 <= r[k].y < |grid| && 0 <= r[k].x < |grid[r[k].y]| && grid[r[k].y][r[k].x] >= threshold &&
        r[k].w == w && r[k].h == h &&
        r[k].centerX == r[k].x + w / 2 && r[k].centerY == r[k].y + h / 2 &&
        2 * (r[k].centerX - r[k].x) <= w < 2 * (r[k].centerX - r[k].x) + 2) &&
      (forall x, y :: 0 <= y < |grid| && 0 <= x < |grid[y]| && grid[y][x] >= threshold ==>
        exists k :: 0 <= k < |r| && r[k].x == x && r[k].y == y) &&
      (forall k, l :: 0 <= k < l < |r| ==> Before((r[k].x, r[k].y), (r[l].x, r[l].y)))
  {
    var hits := Hits(grid, threshold);
    var r := MatchTemplate(grid, threshold, w, h);
    HitsExact(grid, threshold);
    forall k | 0 <= k < |r|
      ensures 0 <= r[k].y < |grid| && 0 <= r[k].x < |grid[r[k].y]| && grid[r[k].y][r[k].x] >= threshold
    {
      assert (r[k].x, r[k].y) == hits[k];
    }
    forall x, y | 0 <= y < |grid| && 0 <= x < |grid[y]| && grid[y][x] >= threshold
      ensures exists k :: 0 <= k < |r| && r[k].x == x && r[k].y == y
    {
      var k :| 0 <= k < |hits| && hits[k] == (x, y);
      assert r[k].x == x && r[k].y == y;
    }
  }

  /** The worker state: the flag, the screenshot slot and the results. */
  datatype Slots = Slots(stopped: bool, shot: Option<Pixels>, coords: seq<Detection>)

  /** One pass of the worker, with what the other threads did since the
      previous one: a screenshot handed to update, and whether stop was
      called before the next test of the loop. */
  datatype Turn = Turn(update: Option<Pixels>, stopAfter: bool)

  class ObjectDetector {
    const threshold: real
    const sleepInterval: real
    const template: Pixels
    const w: nat
    const h: nat
    /** preprocess_image and cv.matchTemplate on a screenshot and the
        template; Err is an exception raised inside them. */
    const matcher: (Pixels, Pixels) -> Result<Scores>

    var stopped: bool
    var screenshot: array2?<int>
    var coords: seq<Detection>
    var workersStarted: nat

    /** __init__ once the template is loaded: its height and width are the
        record size. */
    constructor (template: Pixels, threshold: real, sleepInterval: real, matcher: (Pixels, Pixels) -> Result<Scores>)
      ensures this.template == template && this.threshold == threshold
      ensures this.sleepInterval == sleepInterval && this.matcher == matcher
      ensures w == Width(template) && h == Height(template)
      ensures stopped && screenshot == null && coords == [] && workersStarted == 0
    {
      this.template := template;
      this.threshold := threshold;
      this.sleepInterval := sleepInterval;
      this.matcher := matcher;
      w := Width(template);
      h := Height(template);
      stopped := true;
      screenshot := null;
      coords := [];
      workersStarted := 0;
    }

    function SlotsOf(): Slots
      reads this, screenshot
    {
      Slots(stopped, if screenshot == null then None else Some(Snapshot(screenshot)), coords)
    }

    /** What one pass of the worker does: with a screenshot, the matching
        replaces the results, unless it raises; without one, nothing. */
    function Detected(s: Slots): seq<Detection> {
      if s.shot.None? then s.coords
      else
        match matcher(s.shot.value, template)
        case Err(_) => s.coords
        case Ok(grid) => MatchTemplate(grid, threshold, w, h)
    }

    function DetectPass(s: Slots, p: Turn): Slots {
      var shot := if p.update.Some? then p.update else s.shot;
      Slots(p.stopAfter, shot, Detected(Slots(s.stopped, shot, s.coords)))
    }

    /** `while not self.stopped` over the passes in order. */
    function Detecting(s: Slots, passes: seq<Turn>): Slots {
      if passes == [] then s
      else
        var q := Detecting(s, passes[..|passes| - 1]);
        if q.stopped then q else DetectPass(q, passes[|passes| - 1])
    }

    /** A pass whose matching raises keeps the previous results, and the
        worker goes on unless a stop was requested. */
    lemma MatchErrorKeepsCoords(s: Slots, p: Turn)
      requires var shot := if p.update.Some? then p.update else s.shot;
        shot.Some? && matcher(shot.value, template).Err?
      ensures DetectPass(s, p).coords == s.coords && DetectPass(s, p).stopped == p.stopAfter
    {
    }

    /** As long as no screenshot has arrived the results stay as they were:
        empty, on a fresh detector. */
    lemma {:induction false} NoShotNoCoords(s: Slots, passes: seq<Turn>)
      requires s.shot.None?
      requires forall i :: 0 <= i < |passes| ==> passes[i].update.None?
      ensures Detecting(s, passes).coords == s.coords && Detecting(s, passes).shot.None?
    {
      if passes != [] {
        NoShotNoCoords(s, passes[..|passes| - 1]);
      }
    }

    /** The results after any passes are the first ones, or the records of
        a score grid the matcher returned on some screenshot. */
    lemma {:induction false} CoordsFromMatching(s: Slots, passes: seq<Turn>)
      ensures var c := Detecting(s, passes).coords;
        c == s.coords ||
        exists shot: Pixels, grid: Scores ::
          matcher(shot, template) == Ok(grid) && c == MatchTemplate(grid, threshold, w, h)
    {
      if passes != [] {
        CoordsFromMatching(s, passes[..|passes| - 1]);
      }
    }

    lemma {:induction false} DetectingSticks(s: Slots, passes: seq<Turn>, i: nat)
      requires i <= |passes| && Detecting(s, passes[..i]).stopped
      ensures Detecting(s, passes) == Detecting(s, passes[..i])
    {
      if i < |passes| {
        assert passes[..|passes| - 1][..i] == passes[..i];
        DetectingSticks(s, passes[..|passes| - 1], i);
      } else {
        assert passes[..i] == passes;
      }
    }

    /** update: the slot gets a copy of the screenshot, so later writes to
        the caller's buffer do not reach it. */
    method Update(frame: array2<int>)
      modifies this
      ensures fresh(screenshot) && screenshot != frame
      ensures SlotsOf() == Slots(old(stopped), Some(Snapshot(frame)), old(coords))
      ensures workersStarted == old(workersStarted)
    {
      screenshot := Copy(frame);
    }

    /** get_coordinates: the latest results, as a list of its own. */
    method GetCoordinates() returns (r: seq<Detection>)
      ensures r == coords
    {
      r := coords;
    }

    /** start: nothing when already running; otherwise the flag is cleared
        and one worker started. */
    method Start()
      modifies this
      ensures !stopped
      ensures workersStarted == old(workersStarted) + (if old(stopped) then 1 else 0)
      ensures screenshot == old(screenshot) && coords == old(coords)
    {
      if !stopped {
        return;
      }
      stopped := false;
      workersStarted := workersStarted + 1;
    }

    method Stop()
      modifies this
      ensures stopped
      ensures screenshot == old(screenshot) && coords == old(coords) && workersStarted == old(workersStarted)
    {
      stopped := true;
    }

    /** One pass of run, with the update and stop calls that land around
        it; an exception in the matching is logged and the pass ends. */
    method RunPass(p: Turn)
      requires !stopped
      modifies this
      ensures SlotsOf() == DetectPass(old(SlotsOf()), p)
      ensures workersStarted == old(workersStarted)
    {
      if p.update.Some? {
        var buffer := FromPixels(p.update.value);
        Update(buffer);
      }
      ghost var before := SlotsOf();
      if screenshot != null {
        var local := Copy(screenshot);
        var result := matcher(Snapshot(local), template);
        if result.Ok? {
          coords := MatchTemplate(result.value, threshold, w, h);
        }
      }
      assert coords == Detected(before);
      if p.stopAfter {
        stopped := true;
      }
    }

    /** run over the passes it gets to make; the `finally` leaves the flag
        set on the way out. */
    method Run(passes: seq<Turn>)
      modifies this
      ensures var r := Detecting(old(SlotsOf()), passes);
        SlotsOf() == Slots(true, r.shot, r.coords)
      ensures workersStarted == old(workersStarted)
    {
      ghost var s0 := SlotsOf();
      var i := 0;
      while i < |passes| && !stopped
        invariant 0 <= i <= |passes|
        invariant SlotsOf() == Detecting(s0, passes[..i])
        invariant workersStarted == old(workersStarted)
      {
        assert passes[..i + 1][..i] == passes[..i];
        RunPass(passes[i]);
        i := i + 1;
      }
      if i < |passes| {
        DetectingSticks(s0, passes, i);
      } else {
        assert passes[..i] == passes;
      }
      stopped := true;
    }
  }

  /** The constructor's template load: a path that holds no image raises
      FileNotFoundError. */
  method Open(templatePath: string, images: map<string, Pixels>, threshold: real, sleepInterval: real,
              matcher: (Pixels, Pixels) -> Result<Scores>)
    returns (d: ObjectDetector?, o: Outcome)
    ensures o.Pass? <==> d != null
    ensures templatePath !in images <==> o == Fail(FileNotFound(templatePath))
    ensures d != null ==>
      fresh(d) && d.template == images[templatePath] && d.matcher == matcher && d.threshold == threshold &&
      d.stopped && d.screenshot == null && d.coords == [] &&
      d.w == Width(images[templatePath]) && d.h == Height(images[templatePath])
  {
    if templatePath !in images {
      return null, Fail(FileNotFound(templatePath));
    }
    d := new ObjectDetector(images[templatePath], threshold, sleepInterval, matcher);
    o := Pass;
  }
}
