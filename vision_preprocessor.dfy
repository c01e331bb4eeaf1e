/** VisionPreprocessor: a worker that takes the latest input frame, cuts it
    to the region of interest when one is set, and runs it through the
    colour mask, the blur, the edge detector and the morphology (OpenCV,
    the `mask`, `blur` and `edges` stages here) into the output slot. */
module Preprocess {
  import opened Effects
  import opened Frames

  /** The ROI fields: enabled, corner, width and height. */
  datatype Roi = Roi(enabled: bool, x: int, y: int, w: int, h: int)

  /** A crop: columns x1..x2 and rows y1..y2, ends excluded. */
  datatype Box = Box(x1: int, y1: int, x2: int, y2: int)

  /** `max(0, min(v, hi))`. */
  function Clamp(v: int, hi: int): int {
    if v < hi then (if v < 0 then 0 else v) else (if hi < 0 then 0 else hi)
  }

  /** The ROI step of process_frame on an image of `height` rows and `width`
      columns: the ROI's corners clamped into the image, kept only when
      the ROI is enabled with a positive size and the clamped box is not
      empty. */
  function RoiBox(roi: Roi, height: nat, width: nat): Option<Box> {
    if roi.enabled && roi.w > 0 && roi.h > 0 then
      var b := Box(Clamp(roi.x, width), Clamp(roi.y, height), Clamp(roi.x + roi.w, width), Clamp(roi.y + roi.h, height));
      if b.x2 > b.x1 && b.y2 > b.y1 then Some(b) else None
    else None
  }

  /** The crop lies inside the image and is not empty. */
  lemma RoiBoxInBounds(roi: Roi, height: nat, width: nat)
    ensures var r := RoiBox(roi, height, width);
      r.Some? ==> 0 <= r.value.x1 < r.value.x2 <= width && 0 <= r.value.y1 < r.value.y2 <= height
  {
  }

  /** A pixel is in the crop exactly when it is both in the image and in the
      ROI's rectangle. */
  lemma RoiBoxIsIntersection(roi: Roi, height: nat, width: nat, px: int, py: int)
    requires RoiBox(roi, height, width).Some?
    ensures var b := RoiBox(roi, height, width).value;
      (b.x1 <= px < b.x2 && b.y1 <= py < b.y2) <==>
      (0 <= px < width && 0 <= py < height && roi.x <= px < roi.x + roi.w && roi.y <= py < roi.y + roi.h)
  {
  }

  /** The crop is applied exactly when the ROI is enabled with a positive
      size and overlaps the image. */
  lemma RoiBoxWhen(roi: Roi, height: nat, width: nat)
    ensures RoiBox(roi, height, width).Some? <==>
      roi.enabled && roi.w > 0 && roi.h > 0 &&
      0 < width && roi.x < width && 0 < roi.x + roi.w &&
      0 < height && roi.y < height && 0 < roi.y + roi.h
  {
  }

  /** The blur kernel size: `max(1, gaussian)`, one more when even. */
  function KernelSize(gaussian: int): int {
    var k := if gaussian > 1 then gaussian else 1;
    if k % 2 == 0 then k + 1 else k
  }

  /** The kernel is the least odd size of at least `gaussian` and 1: odd,
      at least 1, the setting itself or one more, and 1 (no blur) exactly
      when the setting is at most 1. */
  lemma KernelSizeOdd(gaussian: int)
    ensures var k := KernelSize(gaussian);
      k % 2 == 1 && k >= 1 && k >= gaussian &&
      (gaussian >= 1 ==> k == gaussian || k == gaussian + 1) &&
      (k == gaussian + 1 ==> gaussian % 2 == 0) &&
      (k == 1 <==> gaussian <= 1)
  {
  }

  /** One pass of the worker, with what the other threads did since the
      previous one: a frame handed to set_input, and whether stop was
      called before the next test of the loop. */
  datatype Turn = Turn(input: Option<Pixels>, stopAfter: bool)

  /** The worker state: the flag, the two slots, and whether the thread
      has died of an exception. */
  datatype Slots = Slots(stopped: bool, input: Option<Pixels>, output: Option<Pixels>, raised: bool)

  /** The loop has been left: by the flag, or by an exception. */
  predicate Ended(s: Slots) {
    s.stopped || s.raised
  }

  class VisionPreprocessor {
    const bufferTime: real := 0.1
    /** The colour conversion and mask (the HSV range or the grayscale
        threshold) on a non-empty image; OpenCV may refuse the image. */
    const mask: Pixels -> Result<Pixels>
    /** GaussianBlur with a square kernel of the given size. */
    const blur: (Pixels, int) -> Pixels
    /** Canny, then dilation and erosion; OpenCV may refuse the image. */
    const edges: Pixels -> Result<Pixels>

    var gaussian: int
    var stopped: bool
    var inputFrame: array2?<int>
    var outputFrame: array2?<int>
    var roiEnabled: bool
    var roiX: int
    var roiY: int
    var roiW: int
    var roiH: int
    var workersStarted: nat

    /** The class defaults and a default filter configuration, whose
        Gaussian setting is 1. */
    constructor (mask: Pixels -> Result<Pixels>, blur: (Pixels, int) -> Pixels, edges: Pixels -> Result<Pixels>)
      ensures this.mask == mask && this.blur == blur && this.edges == edges
      ensures gaussian == 1 && stopped && inputFrame == null && outputFrame == null
      ensures RoiOf() == Roi(false, 0, 0, 0, 0) && workersStarted == 0
    {
      this.mask := mask;
      this.blur := blur;
      this.edges := edges;
      gaussian := 1;
      stopped := true;
      inputFrame := null;
      outputFrame := null;
      roiEnabled := false;
      roiX, roiY, roiW, roiH := 0, 0, 0, 0;
      workersStarted := 0;
    }

    function RoiOf(): Roi
      reads this
    {
      Roi(roiEnabled, roiX, roiY, roiW, roiH)
    }

    /** The worker state, with whether the worker has died of an exception,
        which the object does not record. */
    function SlotsOf(raised: bool): Slots
      reads this, inputFrame, outputFrame
    {
      Slots(stopped,
            if inputFrame == null then None else Some(Snapshot(inputFrame)),
            if outputFrame == null then None else Some(Snapshot(outputFrame)),
            raised)
    }

    /** The stages after the crop, blurring only with a kernel above 1. The
        first cvtColor raises on an image with no pixels. */
    function Filtered(region: Pixels, gaussian: int): Result<Pixels> {
      if Height(region) == 0 || Width(region) == 0 then Err(EmptyImage)
      else
        match mask(region)
        case Err(e) => Err(e)
        case Ok(masked) =>
          var k := KernelSize(gaussian);
          edges(if k > 1 then blur(masked, k) else masked)
    }

    /** process_frame on the pixels of an image with `height` rows and
        `width` columns. */
    function Processed(roi: Roi, gaussian: int, p: Pixels, height: nat, width: nat): Result<Pixels>
      requires Height(p) == height && (height > 0 ==> Width(p) == width)
    {
      match RoiBox(roi, height, width)
      case Some(b) => Filtered(Region(p, b.y1, b.y2, b.x1, b.x2), gaussian)
      case None => Filtered(p, gaussian)
    }

    /** The shape a frame reports and the shape of its pixels agree where
        process_frame looks: an image with no rows is never cropped. */
    lemma ProcessedShape(roi: Roi, g: int, p: Pixels, height: nat, width: nat)
      requires Height(p) == height && (height > 0 ==> Width(p) == width)
      ensures Processed(roi, g, p, height, width) == Processed(roi, g, p, Height(p), Width(p))
    {
      if height == 0 {
        assert RoiBox(roi, height, width).None?;
        assert RoiBox(roi, Height(p), Width(p)).None?;
      }
    }

    /** An empty image raises before any stage; otherwise an error of the
        mask is passed on, a setting of 1 or less skips the blur, and a
        larger one blurs with an odd kernel. */
    lemma BlurOnlyAboveOne(region: Pixels, g: int)
      ensures Height(region) == 0 || Width(region) == 0 ==> Filtered(region, g) == Err(EmptyImage)
      ensures Height(region) > 0 && Width(region) > 0 && mask(region).Err? ==>
        Filtered(region, g) == Err(mask(region).error)
      ensures Height(region) > 0 && Width(region) > 0 && mask(region).Ok? && g <= 1 ==>
        Filtered(region, g) == edges(mask(region).value)
      ensures Height(region) > 0 && Width(region) > 0 && mask(region).Ok? && g > 1 ==>
        exists k :: k % 2 == 1 && k > 1 && Filtered(region, g) == edges(blur(mask(region).value, k))
    {
      KernelSizeOdd(g);
      if Height(region) > 0 && Width(region) > 0 && mask(region).Ok? && g > 1 {
        assert Filtered(region, g) == edges(blur(mask(region).value, KernelSize(g)));
      }
    }

    /** A frame with no rows or no columns makes process_frame raise, and
        a crop is never what makes it empty: a cropped region has pixels. */
    lemma EmptyFrameRaises(roi: Roi, g: int, p: Pixels)
      ensures Height(p) == 0 || Width(p) == 0 ==> Processed(roi, g, p, Height(p), Width(p)) == Err(EmptyImage)
      ensures var box := RoiBox(roi, Height(p), Width(p));
        box.Some? ==>
          var r := Region(p, box.value.y1, box.value.y2, box.value.x1, box.value.x2);
          Height(r) > 0 && Width(r) > 0 && Processed(roi, g, p, Height(p), Width(p)) == Filtered(r, g)
    {
      RoiBoxInBounds(roi, Height(p), Width(p));
    }

    /** set_roi: the five ROI fields and nothing else. */
    method SetRoi(x: int, y: int, w: int, h: int, enabled: bool)
      modifies this
      ensures RoiOf() == Roi(enabled, x, y, w, h)
      ensures gaussian == old(gaussian) && stopped == old(stopped)
      ensures inputFrame == old(inputFrame) && outputFrame == old(outputFrame)
      ensures workersStarted == old(workersStarted)
    {
      roiX, roiY := x, y;
      roiW, roiH := w, h;
      roiEnabled := enabled;
    }

    /** set_input: the slot gets a copy, so later writes to the caller's
        buffer do not reach it. */
    method SetInput(frame: array2<int>)
      modifies this
      ensures fresh(inputFrame) && inputFrame != frame
      ensures SlotsOf(false) == Slots(old(stopped), Some(Snapshot(frame)), old(SlotsOf(false).output), false)
      ensures outputFrame == old(outputFrame) && RoiOf() == old(RoiOf()) && gaussian == old(gaussian)
      ensures workersStarted == old(workersStarted)
    {
      inputFrame := Copy(frame);
    }

    /** get_output: None before the first output, else a copy of it. */
    method GetOutput() returns (r: array2?<int>)
      ensures outputFrame == null <==> r == null
      ensures r != null ==> fresh(r) && Snapshot(r) == Snapshot(outputFrame)
    {
      if outputFrame == null {
        return null;
      }
      r := Copy(outputFrame);
    }

    /** process_frame: the processed image, or the exception OpenCV
        raises. */
    method ProcessFrame(img: array2<int>) returns (r: Result<array2<int>>)
      ensures var want := Processed(RoiOf(), gaussian, Snapshot(img), img.Length0, img.Length1);
        (r.Ok? <==> want.Ok?) &&
        (r.Ok? ==> fresh(r.value) && Snapshot(r.value) == want.value) &&
        (r.Err? ==> r.error == want.error)
    {
      var p := Snapshot(img);
      var region := p;
      var box := RoiBox(RoiOf(), img.Length0, img.Length1);
      if box.Some? {
        var b := box.value;
        var cropped := Crop(img, b.y1, b.y2, b.x1, b.x2);
        region := Snapshot(cropped);
      }
      if Height(region) == 0 || Width(region) == 0 {
        return Err(EmptyImage);
      }
      var masked := mask(region);
      if masked.Err? {
        return Err(masked.error);
      }
      var k := KernelSize(gaussian);
      var blurred := if k > 1 then blur(masked.value, k) else masked.value;
      var e := edges(blurred);
      if e.Err? {
        return Err(e.error);
      }
      var out := FromPixels(e.value);
      r := Ok(out);
    }

    /** One pass of run: the input slot takes the frame handed in, and the
        latest input is processed into the output; an exception from
        process_frame ends the thread with the flag left as it was and the
        output unchanged. */
    function PrepPass(s: Slots, t: Turn, roi: Roi, g: int): Slots {
      var input := if t.input.Some? then t.input else s.input;
      if input.None? then Slots(t.stopAfter, input, s.output, false)
      else
        var p := input.value;
        match Processed(roi, g, p, Height(p), Width(p))
        case Err(_) => Slots(s.stopped, input, s.output, true)
        case Ok(q) => Slots(t.stopAfter, input, Some(q), false)
    }

    /** `while not self.stopped` over the passes in order, until the flag
        or an exception ends it. */
    function Preparing(s: Slots, turns: seq<Turn>, roi: Roi, g: int): Slots {
      if turns == [] then s
      else
        var q := Preparing(s, turns[..|turns| - 1], roi, g);
        if Ended(q) then q else PrepPass(q, turns[|turns| - 1], roi, g)
    }

    /** Once the worker has ended, later passes change nothing. */
    lemma {:induction false} PreparingSticks(s: Slots, turns: seq<Turn>, roi: Roi, g: int, i: nat)
      requires i <= |turns| && Ended(Preparing(s, turns[..i], roi, g))
      ensures Preparing(s, turns, roi, g) == Preparing(s, turns[..i], roi, g)
    {
      if i < |turns| {
        assert turns[..|turns| - 1][..i] == turns[..i];
        PreparingSticks(s, turns[..|turns| - 1], roi, g, i);
      } else {
        assert turns[..i] == turns;
      }
    }

    /** A pass raises exactly when it has an input whose processing fails;
        then the flag stays down, the output keeps its old value, and the
        input slot holds the frame that failed. */
    lemma RaisingPassLeavesOutput(s: Slots, t: Turn, roi: Roi, g: int)
      requires !s.stopped
      ensures var r := PrepPass(s, t, roi, g);
        var input := if t.input.Some? then t.input else s.input;
        (r.raised <==> input.Some? && Processed(roi, g, input.value, Height(input.value), Width(input.value)).Err?) &&
        (r.raised ==> !r.stopped && r.output == s.output && r.input == input)
    {
    }

    /** From an empty start, the output stays empty until an input arrives.
        While no pass has raised, the output is the processing of the latest
        input. If one has, the latest input is the one whose processing
        failed, and the flag is still down. */
    lemma {:induction false} OutputFollowsInput(s: Slots, turns: seq<Turn>, roi: Roi, g: int)
      requires !s.stopped && !s.raised && s.output.None? && s.input.None?
      ensures var r := Preparing(s, turns, roi, g);
        (r.input.None? ==> r.output.None? && !r.raised) &&
        (r.input.Some? && !r.raised ==>
           var want := Processed(roi, g, r.input.value, Height(r.input.value), Width(r.input.value));
           want.Ok? && r.output == Some(want.value)) &&
        (r.raised ==>
           r.input.Some? && !r.stopped &&
           Processed(roi, g, r.input.value, Height(r.input.value), Width(r.input.value)).Err?)
    {
      if turns != [] {
        OutputFollowsInput(s, turns[..|turns| - 1], roi, g);
      }
    }

    /** start: no guard; every call clears the flag and starts a worker. */
    method Start()
      modifies this
      ensures !stopped && workersStarted == old(workersStarted) + 1
      ensures inputFrame == old(inputFrame) && outputFrame == old(outputFrame)
      ensures RoiOf() == old(RoiOf()) && gaussian == old(gaussian)
    {
      stopped := false;
      workersStarted := workersStarted + 1;
    }

    method Stop()
      modifies this
      ensures stopped
      ensures inputFrame == old(inputFrame) && outputFrame == old(outputFrame)
      ensures RoiOf() == old(RoiOf()) && gaussian == old(gaussian) && workersStarted == old(workersStarted)
    {
      stopped := true;
    }

    /** One pass of run, with the set_input and stop calls that land around
        it; the outcome is the exception that ends the thread, if any. */
    method RunPass(t: Turn) returns (o: Outcome)
      requires !stopped
      modifies this
      ensures SlotsOf(o.Fail?) == PrepPass(old(SlotsOf(false)), t, RoiOf(), gaussian)
      ensures o.Fail? ==> inputFrame != null
      ensures o.Fail? && inputFrame != null ==>
        var p := Snapshot(inputFrame);
        Processed(RoiOf(), gaussian, p, Height(p), Width(p)) == Err(o.error)
      ensures RoiOf() == old(RoiOf()) && gaussian == old(gaussian) && workersStarted == old(workersStarted)
    {
      if t.input.Some? {
        var buffer := FromPixels(t.input.value);
        SetInput(buffer);
      }
      ghost var input := SlotsOf(false).input;
      o := Pass;
      if inputFrame != null {
        var frame := Copy(inputFrame);
        var processed := ProcessFrame(frame);
        ProcessedShape(RoiOf(), gaussian, input.value, frame.Length0, frame.Length1);
        if processed.Err? {
          return Fail(processed.error);
        }
        outputFrame := processed.value;
      }
      if t.stopAfter {
        stopped := true;
      }
    }

    /** run over the passes it gets to make; the outcome is the exception
        that ended it, if any. */
    method Run(turns: seq<Turn>) returns (o: Outcome)
      modifies this
      ensures SlotsOf(o.Fail?) == Preparing(old(SlotsOf(false)), turns, RoiOf(), gaussian)
      ensures o.Fail? ==> inputFrame != null
      ensures o.Fail? && inputFrame != null ==>
        var p := Snapshot(inputFrame);
        Processed(RoiOf(), gaussian, p, Height(p), Width(p)) == Err(o.error)
      ensures RoiOf() == old(RoiOf()) && gaussian == old(gaussian) && workersStarted == old(workersStarted)
    {
      ghost var s0 := SlotsOf(false);
      var i := 0;
      o := Pass;
      while i < |turns| && !stopped
        invariant 0 <= i <= |turns| && o == Pass
        invariant SlotsOf(false) == Preparing(s0, turns[..i], RoiOf(), gaussian)
        invariant RoiOf() == old(RoiOf()) && gaussian == old(gaussian) && workersStarted == old(workersStarted)
      {
        assert turns[..i + 1][..i] == turns[..i];
        o := RunPass(turns[i]);
        i := i + 1;
        if o.Fail? {
          break;
        }
      }
      if i < |turns| || o.Fail? {
        PreparingSticks(s0, turns, RoiOf(), gaussian, i);
      } else {
        assert turns[..i] == turns;
      }
    }
  }
}
