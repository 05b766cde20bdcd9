/** `run_pcb_detection` of the detection service (pcb_model/app/pcb_model.py):
    every Roboflow prediction is drawn on the image and cut out as a crop, with
    no confidence cut-off. Inference, image loading and PNG encoding are inputs. */
module PcbModel {
  import opened Common
  import opened Geometry
  import opened Imaging

  /** The optional "image" entry of an inference result. */
  datatype ImageInfo = ImageInfo(width: Option<int>, height: Option<int>)

  /** What `CLIENT.infer` returns: optional "predictions" and "image" keys. */
  datatype InferenceResult = InferenceResult(predictions: Option<seq<Prediction>>, image: Option<ImageInfo>)

  datatype AnnotatedImage = AnnotatedImage(bytes: Png, width: int, height: int, originalFilename: string)
  datatype DetectedCrop = DetectedCrop(
    bytes: Png, width: int, height: int, prediction: string, confidence: real, bbox: Bbox)
  datatype DetectionResult = DetectionResult(annotatedImage: AnnotatedImage, crops: seq<DetectedCrop>)

  const UnknownClass: string := "unknown"

  /** `result.get("predictions", [])`. */
  function Predictions(result: InferenceResult): seq<Prediction>
  {
    result.predictions.GetOr([])
  }

  /** `result.get("image", {}).get("width", img.width)`. */
  function ReportedWidth(result: InferenceResult, img: Picture): int
  {
    if result.image.Some? && result.image.value.width.Some? then result.image.value.width.value else Width(img)
  }

  /** `result.get("image", {}).get("height", img.height)`. */
  function ReportedHeight(result: InferenceResult, img: Picture): int
  {
    if result.image.Some? && result.image.value.height.Some? then result.image.value.height.value else Height(img)
  }

  /** The label drawn over a box: class and confidence formatted by `fixed2` (`:.2f`). */
  function Caption(p: Prediction, fixed2: real -> string): string
  {
    p.cls.GetOr(UnknownClass) + " " + fixed2(p.confidence.GetOr(0.0))
  }

  /** The copy of `img` with a box and caption drawn for each prediction, in order. */
  function Annotate(img: Picture, preds: seq<Prediction>, fixed2: real -> string): Picture
  {
    if preds == [] then img
    else var p := preds[|preds| - 1];
      Drawn(Annotate(img, preds[..|preds| - 1], fixed2), PredToXyxy(p), Caption(p, fixed2))
  }

  /** The error drawing the boxes of `preds` raises: Pillow's error for the
      first box whose corners are out of order, if there is one. */
  function DrawError(preds: seq<Prediction>): Option<string>
  {
    if preds == [] then None
    else
      var e := DrawError(preds[..|preds| - 1]);
      if e.Some? then e else RectangleError(PredToXyxy(preds[|preds| - 1]))
  }

  /** Drawing fails exactly when some prediction's box is out of order, a box
      of negative width or height, and then with one of Pillow's two errors. */
  lemma {:induction false} DrawErrorExactly(preds: seq<Prediction>)
    ensures DrawError(preds).None? <==> forall k :: 0 <= k < |preds| ==> Ordered(PredToXyxy(preds[k]))
    ensures DrawError(preds).Some? ==> DrawError(preds).value in {RectangleXError, RectangleYError}
  {
    if preds != [] {
      var init := preds[..|preds| - 1];
      DrawErrorExactly(init);
      assert forall k :: 0 <= k < |init| ==> init[k] == preds[k];
    }
  }

  /** Boxes of non-negative size are always drawn. */
  lemma DrawSucceedsOnSizedBoxes(preds: seq<Prediction>)
    requires forall k :: 0 <= k < |preds| ==> preds[k].width >= 0.0 && preds[k].height >= 0.0
    ensures DrawError(preds) == None
  {
    forall k | 0 <= k < |preds| ensures Ordered(PredToXyxy(preds[k])) {
      PredToXyxyOrdered(preds[k]);
    }
    DrawErrorExactly(preds);
  }

  lemma DrawErrorStep(preds: seq<Prediction>, i: nat)
    requires i < |preds|
    ensures DrawError(preds[..i + 1])
         == if DrawError(preds[..i]).Some? then DrawError(preds[..i]) else RectangleError(PredToXyxy(preds[i]))
  {
    assert preds[..i + 1][..i] == preds[..i];
  }

  /** Once a box has failed to draw, later predictions change nothing. */
  lemma {:induction false} DrawErrorSticks(preds: seq<Prediction>, j: nat)
    requires j <= |preds| && DrawError(preds[..j]).Some?
    ensures DrawError(preds) == DrawError(preds[..j])
  {
    if j < |preds| {
      var init := preds[..|preds| - 1];
      assert init[..j] == preds[..j];
      DrawErrorSticks(init, j);
    } else {
      assert preds[..j] == preds;
    }
  }

  /** The crop made for one prediction: the box cut from the original image.
      It copies the prediction's class ("unknown" when missing) and confidence
      (0.0 when missing), stores the box as top-left corner with width x2 - x1
      and height y2 - y1, and has exactly the box's size. */
  function CropOf(img: Picture, p: Prediction): (crop: DetectedCrop)
    ensures var c := PredToXyxy(p);
      && crop.prediction == (if p.cls.Some? then p.cls.value else "unknown")
      && crop.confidence == (if p.confidence.Some? then p.confidence.value else 0.0)
      && crop.bbox == BboxOf(c)
      && crop.width == c.x2 - c.x1 && crop.height == c.y2 - c.y1
      && crop.bytes == Png(Cropped(img, c))
  {
    var c := PredToXyxy(p);
    var piece := Cropped(img, c);
    DetectedCrop(Png(piece), Width(piece), Height(piece), p.cls.GetOr(UnknownClass), p.confidence.GetOr(0.0), BboxOf(c))
  }

  /** The annotated image keeps the size of the image it was drawn on. */
  lemma {:induction false} AnnotateKeepsSize(img: Picture, preds: seq<Prediction>, fixed2: real -> string)
    ensures Width(Annotate(img, preds, fixed2)) == Width(img)
    ensures Height(Annotate(img, preds, fixed2)) == Height(img)
  {
    if preds != [] {
      AnnotateKeepsSize(img, preds[..|preds| - 1], fixed2);
    }
  }

  /** The crops of all predictions, in prediction order. */
  function CropsOf(img: Picture, preds: seq<Prediction>): seq<DetectedCrop>
  {
    seq(|preds|, k requires 0 <= k < |preds| => CropOf(img, preds[k]))
  }

  lemma AnnotateStep(img: Picture, preds: seq<Prediction>, fixed2: real -> string, i: nat)
    requires i < |preds|
    ensures Annotate(img, preds[..i + 1], fixed2)
         == Drawn(Annotate(img, preds[..i], fixed2), PredToXyxy(preds[i]), Caption(preds[i], fixed2))
  {
    assert preds[..i + 1][..i] == preds[..i];
  }

  lemma CropsOfStep(img: Picture, preds: seq<Prediction>, i: nat)
    requires i < |preds|
    ensures CropsOf(img, preds[..i + 1]) == CropsOf(img, preds[..i]) + [CropOf(img, preds[i])]
  {
    var lhs := CropsOf(img, preds[..i + 1]);
    var rhs := CropsOf(img, preds[..i]) + [CropOf(img, preds[i])];
    forall t | 0 <= t < i + 1 ensures lhs[t] == rhs[t] {
    }
  }

  /** The result of `run_pcb_detection`, or Pillow's error when a box cannot be
      drawn. The reported size is the inference result's "image" entry where
      it gives one, and the loaded picture's size otherwise. */
  function Detection(imagePath: string, img: Picture, result: InferenceResult, fixed2: real -> string)
    : (r: Result<DetectionResult>)
    ensures r.Ok? <==> forall k :: 0 <= k < |Predictions(result)| ==> Ordered(PredToXyxy(Predictions(result)[k]))
    ensures r.Ok? ==> |r.value.crops| == |Predictions(result)| && r.value.annotatedImage.originalFilename == Basename(imagePath)
    ensures r.Ok? ==> r.value.annotatedImage.bytes == Png(Annotate(img, Predictions(result), fixed2))
    ensures r.Ok? ==>
      r.value.annotatedImage.width
        == (if result.image.Some? && result.image.value.width.Some? then result.image.value.width.value else Width(img))
    ensures r.Ok? ==>
      r.value.annotatedImage.height
        == (if result.image.Some? && result.image.value.height.Some? then result.image.value.height.value else Height(img))
  {
    var preds := Predictions(result);
    DrawErrorExactly(preds);
    var drawError := DrawError(preds);
    if drawError.Some? then Err(drawError.value)
    else Ok(DetectionResult(
      AnnotatedImage(Png(Annotate(img, preds, fixed2)), ReportedWidth(result, img), ReportedHeight(result, img),
                     Basename(imagePath)),
      CropsOf(img, preds)))
  }

  /** Every crop is cut from a box that was drawn first, so `Image.crop`
      never sees corners out of order. */
  lemma CropsFollowDrawing(img: Picture, preds: seq<Prediction>)
    requires DrawError(preds) == None
    ensures forall k :: 0 <= k < |preds| ==> CropError(PredToXyxy(preds[k])) == None
  {
    DrawErrorExactly(preds);
  }

  /** The drawing loop of `run_pcb_detection`: a box and caption per
      prediction, in order, until Pillow refuses a box. */
  method AnnotatePredictions(img: Picture, preds: seq<Prediction>, fixed2: real -> string)
    returns (annotated: Result<Picture>)
    ensures annotated == if DrawError(preds).Some? then Err(DrawError(preds).value) else Ok(Annotate(img, preds, fixed2))
  {
    var drawn := img;
    for i := 0 to |preds|
      invariant DrawError(preds[..i]) == None
      invariant drawn == Annotate(img, preds[..i], fixed2)
    {
      var p := preds[i];
      var c := PredToXyxy(p);
      DrawErrorStep(preds, i);
      var drawError := RectangleError(c);
      if drawError.Some? {
        DrawErrorSticks(preds, i + 1);
        return Err(drawError.value);
      }
      var clsName := p.cls.GetOr(UnknownClass);
      var conf := p.confidence.GetOr(0.0);
      drawn := Drawn(drawn, c, clsName + " " + fixed2(conf));
      AnnotateStep(img, preds, fixed2, i);
    }
    assert preds[..|preds|] == preds;
    annotated := Ok(drawn);
  }

  /** The crop loop of `run_pcb_detection`: one crop per prediction, in order. */
  method CutCrops(img: Picture, preds: seq<Prediction>) returns (crops: seq<DetectedCrop>)
    ensures crops == CropsOf(img, preds)
  {
    crops := [];
    for i := 0 to |preds|
      invariant crops == CropsOf(img, preds[..i])
    {
      var p := preds[i];
      var clsName := p.cls.GetOr(UnknownClass);
      var conf := p.confidence.GetOr(0.0);
      var c := PredToXyxy(p);
      var cropImg := Cropped(img, c);
      var cropInfo := DetectedCrop(Png(cropImg), Width(cropImg), Height(cropImg), clsName, conf, BboxOf(c));
      assert cropInfo == CropOf(img, p);
      crops := crops + [cropInfo];
      CropsOfStep(img, preds, i);
    }
    assert preds[..|preds|] == preds;
  }

  /** `run_pcb_detection`: draws every prediction on a copy of the image, then
      makes one crop per prediction, in prediction order. A box Pillow cannot
      draw raises, and nothing is returned. */
  method RunPcbDetection(imagePath: string, img: Picture, result: InferenceResult, fixed2: real -> string)
    returns (r: Result<DetectionResult>)
    ensures r == Detection(imagePath, img, result, fixed2)
    ensures Predictions(result) == [] ==> r.Ok? && r.value.crops == [] && r.value.annotatedImage.bytes == Png(img)
  {
    var preds := Predictions(result);
    var imgW := ReportedWidth(result, img);
    var imgH := ReportedHeight(result, img);

    var annotated := AnnotatePredictions(img, preds, fixed2);
    if annotated.Err? {
      return Err(annotated.message);
    }

    var mainBytes := Png(annotated.value);
    var detection := DetectionResult(AnnotatedImage(mainBytes, imgW, imgH, Basename(imagePath)), []);
    if preds == [] {
      assert CropsOf(img, preds) == [];
      return Ok(detection);
    }

    var crops := CutCrops(img, preds);
    r := Ok(detection.(crops := crops));
  }
}
