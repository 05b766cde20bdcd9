/** Bounding-box arithmetic shared by the defect-analysis tool and the
    detection service: Roboflow's centre-format predictions, their corner form
    (`_pred_to_xyxy`, identical in agent/app/defect_analysis_agent/tools.py
    and pcb_model/app/pcb_model.py), the stored `{x, y, w, h}` box, the 0.3
    confidence cut-off and the padded crop window. */
module Geometry {
  import opened Common

  /** One Roboflow prediction: centre `x`, `y`, box `width`, `height`, and the
      optional "class" and "confidence" keys. */
  datatype Prediction = Prediction(
    x: real, y: real, width: real, height: real,
    cls: Option<string>, confidence: Option<real>)

  /** Top-left (x1, y1) and bottom-right (x2, y2) pixel corners. */
  datatype Corners = Corners(x1: int, y1: int, x2: int, y2: int)

  /** The right edge is not left of the left edge, nor the bottom above the top. */
  predicate Ordered(c: Corners)
  {
    c.x1 <= c.x2 && c.y1 <= c.y2
  }

  /** A box as the dictionary `{"x": .., "y": .., "w": .., "h": ..}`. */
  type Bbox = map<string, int>

  // ---------------------------------------------------------------------------
  // _pred_to_xyxy

  /** `_pred_to_xyxy`: each corner is the exact corner of the centre-format
      box truncated toward zero, so it lies within one pixel of it. */
  function PredToXyxy(p: Prediction): (c: Corners)
    ensures -1.0 < (p.x - p.width / 2.0) - c.x1 as real < 1.0
    ensures -1.0 < (p.y - p.height / 2.0) - c.y1 as real < 1.0
    ensures -1.0 < (p.x + p.width / 2.0) - c.x2 as real < 1.0
    ensures -1.0 < (p.y + p.height / 2.0) - c.y2 as real < 1.0
  {
    Corners(Trunc(p.x - p.width / 2.0), Trunc(p.y - p.height / 2.0),
            Trunc(p.x + p.width / 2.0), Trunc(p.y + p.height / 2.0))
  }

  /** A box of non-negative size keeps its corners in order. */
  lemma PredToXyxyOrdered(p: Prediction)
    requires p.width >= 0.0 && p.height >= 0.0
    ensures PredToXyxy(p).x1 <= PredToXyxy(p).x2
    ensures PredToXyxy(p).y1 <= PredToXyxy(p).y2
  {
    TruncMonotonic(p.x - p.width / 2.0, p.x + p.width / 2.0);
    TruncMonotonic(p.y - p.height / 2.0, p.y + p.height / 2.0);
  }

  /** The centre form of a box given by its integer top-left corner and size. */
  function CenterForm(x: int, y: int, w: int, h: int, cls: Option<string>, confidence: Option<real>): Prediction
  {
    Prediction(x as real + w as real / 2.0, y as real + h as real / 2.0, w as real, h as real, cls, confidence)
  }

  /** Converting an integer box to centre form and back gives its corners exactly. */
  lemma CornersRoundTrip(x: int, y: int, w: int, h: int, cls: Option<string>, confidence: Option<real>)
    ensures PredToXyxy(CenterForm(x, y, w, h, cls, confidence)) == Corners(x, y, x + w, y + h)
  {
    var p := CenterForm(x, y, w, h, cls, confidence);
    assert p.x - p.width / 2.0 == x as real;
    assert p.y - p.height / 2.0 == y as real;
    assert p.x + p.width / 2.0 == (x + w) as real;
    assert p.y + p.height / 2.0 == (y + h) as real;
    TruncOfInteger(x);
    TruncOfInteger(y);
    TruncOfInteger(x + w);
    TruncOfInteger(y + h);
  }

  // ---------------------------------------------------------------------------
  // the stored box: top-left corner plus width and height

  function BboxOf(c: Corners): (b: Bbox)
    ensures b.Keys == {"x", "y", "w", "h"}
    ensures b["x"] == c.x1 && b["y"] == c.y1
    ensures b["x"] + b["w"] == c.x2 && b["y"] + b["h"] == c.y2
  {
    map["x" := c.x1, "y" := c.y1, "w" := c.x2 - c.x1, "h" := c.y2 - c.y1]
  }

  // ---------------------------------------------------------------------------
  // the confidence cut-off of the defect-analysis tool

  const ConfidenceThreshold: real := 0.3

  predicate Accepted(p: Prediction)
  {
    p.confidence.Some? && p.confidence.value >= ConfidenceThreshold
  }

  /** The predictions that pass the cut-off, in their original order. */
  function Kept(ps: seq<Prediction>): (ks: seq<Prediction>)
    ensures |ks| <= |ps|
    ensures forall k :: 0 <= k < |ks| ==> Accepted(ks[k])
  {
    if ps == [] then []
    else Kept(ps[..|ps| - 1]) + (if Accepted(ps[|ps| - 1]) then [ps[|ps| - 1]] else [])
  }

  /** A prediction is kept exactly when it occurs in the input and passes the cut-off. */
  lemma {:induction false} KeptMembership(ps: seq<Prediction>, p: Prediction)
    ensures p in Kept(ps) <==> p in ps && Accepted(p)
  {
    if ps != [] {
      var init := ps[..|ps| - 1];
      KeptMembership(init, p);
      assert ps == init + [ps[|ps| - 1]];
    }
  }

  /** Keeping distributes over concatenation, so the relative order is that of the input. */
  lemma {:induction false} KeptAppend(a: seq<Prediction>, b: seq<Prediction>)
    ensures Kept(a + b) == Kept(a) + Kept(b)
    decreases |b|
  {
    if b == [] {
      assert a + b == a;
    } else {
      var b' := b[..|b| - 1];
      assert (a + b)[..|a + b| - 1] == a + b';
      KeptAppend(a, b');
    }
  }

  // ---------------------------------------------------------------------------
  // the padded crop window of detect_pcb_defects

  /** The padding fraction on each side of a box. */
  const PaddingFraction: real := 0.2

  function MaxInt(a: int, b: int): int { if a >= b then a else b }

  /** The crop window around corners `c`: padded by 20% of the box's width and
      height, clamped to an image of size `imageWidth` x `imageHeight`. */
  function CropWindow(c: Corners, imageWidth: int, imageHeight: int): (win: Corners)
    ensures 0 <= win.x1 && 0 <= win.y1
    ensures win.x2 <= imageWidth && win.y2 <= imageHeight
  {
    var w := c.x2 - c.x1;
    var h := c.y2 - c.y1;
    var paddingX := w as real * PaddingFraction;
    var paddingY := h as real * PaddingFraction;
    Corners(MaxInt(0, Trunc(c.x1 as real - paddingX)),
            MaxInt(0, Trunc(c.y1 as real - paddingY)),
            Min(imageWidth, Trunc(c.x2 as real + paddingX)),
            Min(imageHeight, Trunc(c.y2 as real + paddingY)))
  }

  /** For a box inside the image, the window never cuts into the box. */
  lemma CropWindowContainsBox(c: Corners, imageWidth: int, imageHeight: int)
    requires 0 <= c.x1 <= c.x2 <= imageWidth
    requires 0 <= c.y1 <= c.y2 <= imageHeight
    ensures var win := CropWindow(c, imageWidth, imageHeight);
      win.x1 <= c.x1 && win.y1 <= c.y1 && c.x2 <= win.x2 && c.y2 <= win.y2
  {
    var w := c.x2 - c.x1;
    var h := c.y2 - c.y1;
    TruncMonotonic(c.x1 as real - w as real * PaddingFraction, c.x1 as real);
    TruncMonotonic(c.y1 as real - h as real * PaddingFraction, c.y1 as real);
    TruncMonotonic(c.x2 as real, c.x2 as real + w as real * PaddingFraction);
    TruncMonotonic(c.y2 as real, c.y2 as real + h as real * PaddingFraction);
    TruncOfInteger(c.x1);
    TruncOfInteger(c.y1);
    TruncOfInteger(c.x2);
    TruncOfInteger(c.y2);
  }

  /** For a box inside the image the window is never inverted, so cutting it out cannot fail. */
  lemma CropWindowOrdered(c: Corners, imageWidth: int, imageHeight: int)
    requires 0 <= c.x1 <= c.x2 <= imageWidth
    requires 0 <= c.y1 <= c.y2 <= imageHeight
    ensures Ordered(CropWindow(c, imageWidth, imageHeight))
  {
    CropWindowContainsBox(c, imageWidth, imageHeight);
  }

  /** Away from the image edges the window reaches the full padding, to the pixel. */
  lemma CropWindowPadding(c: Corners, imageWidth: int, imageHeight: int)
    requires c.x1 <= c.x2 && c.y1 <= c.y2
    requires c.x1 as real - (c.x2 - c.x1) as real * PaddingFraction >= 0.0
    requires c.x2 as real + (c.x2 - c.x1) as real * PaddingFraction <= imageWidth as real
    requires c.y1 as real - (c.y2 - c.y1) as real * PaddingFraction >= 0.0
    requires c.y2 as real + (c.y2 - c.y1) as real * PaddingFraction <= imageHeight as real
    ensures var win := CropWindow(c, imageWidth, imageHeight);
      var padX := (c.x2 - c.x1) as real * PaddingFraction;
      var padY := (c.y2 - c.y1) as real * PaddingFraction;
      && c.x1 as real - padX - 1.0 < win.x1 as real <= c.x1 as real - padX
      && c.x2 as real + padX - 1.0 < win.x2 as real <= c.x2 as real + padX
      && c.y1 as real - padY - 1.0 < win.y1 as real <= c.y1 as real - padY
      && c.y2 as real + padY - 1.0 < win.y2 as real <= c.y2 as real + padY
  {
  }
}
