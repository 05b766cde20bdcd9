/** `detect_pcb_defects` of the defect-analysis agent
    (agent/app/defect_analysis_agent/tools.py): predictions below 0.3
    confidence are skipped, each kept one is drawn, cut out with 20% padding
    and resized to 300 x 300, the result is saved through the agent's
    `pcb_db.py`, and a text summary is returned. File existence, inference,
    image loading, number formatting and the local debug files are inputs or
    left out. */
module DefectTools {
  import opened Common
  import opened Geometry
  import opened Imaging
  import opened SupabaseStore
  import opened AgentDb

  /** The number renderings the summary uses: `:.2%`, `:.2f` and `:.1f`. */
  datatype Formats = Formats(percent2: real -> string, fixed2: real -> string, fixed1: real -> string)

  /** What `CLIENT.infer` did: raised an exception with the given text, or
      returned a result with or without a "predictions" key. */
  datatype Inference = InferenceFailed(reason: string) | Inferred(predictions: Option<seq<Prediction>>)

  /** An entry of `crops_data`. */
  datatype KeptCrop = KeptCrop(image: Picture, prediction: string, confidence: real, bbox: Bbox)

  /** The annotated image, `crops_data` and `crop_paths` built by the loop. */
  datatype ScanState = ScanState(annotated: Picture, crops: seq<KeptCrop>, cropPaths: seq<string>)

  const CropSide: nat := 300
  const AgentNote: string := "Saved from defect-analysis-agent"
  const ErrorPrefix: string := "Error during defect detection: "
  const NoPredictionsReply: string := "Analysis complete: No predictions returned from the model."
  const NoDefectsReply: string := "Analysis complete: No defects detected in this image."
  /** `str(KeyError("confidence"))` and `str(KeyError("class"))`. */
  const ConfidenceKeyError: string := "'confidence'"
  const ClassKeyError: string := "'class'"

  function NotFoundReply(imagePath: string): string
  {
    "Error: Image file not found at " + imagePath
  }

  // ---------------------------------------------------------------------------
  // the loop over the predictions

  function LocalCropPath(outputDir: string, i: nat, className: string): string
  {
    PathJoin(outputDir, "crop_" + IntToString(i) + "_" + className + ".jpg")
  }

  /** The crop cut for a kept prediction: the padded window of its box, resized. */
  function CropPicture(img: Picture, p: Prediction): Picture
  {
    Resized(Cropped(img, CropWindow(PredToXyxy(p), Width(img), Height(img))), CropSide, CropSide)
  }

  /** Every crop is resized to 300 x 300, whatever its window. */
  lemma CropPictureSize(img: Picture, p: Prediction)
    ensures Width(CropPicture(img, p)) == CropSide && Height(CropPicture(img, p)) == CropSide
  {
  }

  /** Pillow draws the box of a kept prediction and cuts out its window only
      when the corners of both are in order. */
  predicate Croppable(img: Picture, p: Prediction)
  {
    var c := PredToXyxy(p);
    Ordered(c) && Ordered(CropWindow(c, Width(img), Height(img)))
  }

  /** A box that lies inside the image can always be drawn and cut out. */
  lemma BoxInsideImageCroppable(img: Picture, p: Prediction)
    requires var c := PredToXyxy(p);
      0 <= c.x1 <= c.x2 <= Width(img) && 0 <= c.y1 <= c.y2 <= Height(img)
    ensures Croppable(img, p)
  {
    CropWindowOrdered(PredToXyxy(p), Width(img), Height(img));
  }

  /** The messages that can interrupt the loop. */
  const ScanErrors: set<string> :=
    {ConfidenceKeyError, ClassKeyError, RectangleXError, RectangleYError, CropRightError, CropLowerError}

  /** One pass of the loop for prediction `p` at index `i`: a missing key, a
      box Pillow cannot draw or a window it cannot cut out interrupts it. */
  function ScanOne(img: Picture, st: ScanState, p: Prediction, i: nat, outputDir: string, fmt: Formats): Result<ScanState>
  {
    if p.confidence.None? then Err(ConfidenceKeyError)
    else if p.confidence.value < ConfidenceThreshold then Ok(st)
    else if p.cls.None? then Err(ClassKeyError)
    else
      var className := p.cls.value;
      var c := PredToXyxy(p);
      var drawError := RectangleError(c);
      var cropError := CropError(CropWindow(c, Width(img), Height(img)));
      if drawError.Some? then Err(drawError.value)
      else if cropError.Some? then Err(cropError.value)
      else Ok(ScanState(Drawn(st.annotated, c, className + " " + fmt.percent2(p.confidence.value)),
                   st.crops + [KeptCrop(CropPicture(img, p), className, p.confidence.value, BboxOf(c))],
                   st.cropPaths + [LocalCropPath(outputDir, i, className)]))
  }

  /** The next pass after `sofar`, unless the loop was already interrupted. */
  function ScanThen(img: Picture, sofar: Result<ScanState>, p: Prediction, i: nat, outputDir: string, fmt: Formats)
    : Result<ScanState>
  {
    if sofar.Err? then sofar else ScanOne(img, sofar.value, p, i, outputDir, fmt)
  }

  /** The loop over all predictions; the first missing key interrupts it. */
  function Scan(img: Picture, preds: seq<Prediction>, outputDir: string, fmt: Formats): Result<ScanState>
  {
    if preds == [] then Ok(ScanState(img, [], []))
    else ScanThen(img, Scan(img, preds[..|preds| - 1], outputDir, fmt), preds[|preds| - 1], |preds| - 1, outputDir, fmt)
  }

  lemma ScanStep(img: Picture, preds: seq<Prediction>, i: nat, outputDir: string, fmt: Formats)
    requires i < |preds|
    ensures Scan(img, preds[..i + 1], outputDir, fmt) == ScanThen(img, Scan(img, preds[..i], outputDir, fmt), preds[i], i, outputDir, fmt)
  {
    assert preds[..i + 1][..i] == preds[..i];
  }

  /** Once the loop has been interrupted, later predictions change nothing. */
  lemma {:induction false} ScanErrSticks(img: Picture, preds: seq<Prediction>, j: nat, outputDir: string, fmt: Formats)
    requires j <= |preds| && Scan(img, preds[..j], outputDir, fmt).Err?
    ensures Scan(img, preds, outputDir, fmt) == Scan(img, preds[..j], outputDir, fmt)
  {
    if j < |preds| {
      var init := preds[..|preds| - 1];
      assert init[..j] == preds[..j];
      ScanErrSticks(img, init, j, outputDir, fmt);
    } else {
      assert preds[..j] == preds;
    }
  }

  /** One pass completes exactly when the prediction has a confidence and, if
      kept, a class and a box and window Pillow accepts. */
  lemma ScanOneOk(img: Picture, st: ScanState, p: Prediction, i: nat, outputDir: string, fmt: Formats)
    ensures ScanOne(img, st, p, i, outputDir, fmt).Ok?
        <==> p.confidence.Some? && (Accepted(p) ==> p.cls.Some? && Croppable(img, p))
    ensures ScanOne(img, st, p, i, outputDir, fmt).Err? ==> ScanOne(img, st, p, i, outputDir, fmt).message in ScanErrors
  {
  }

  /** The loop completes exactly when every prediction has a confidence and
      every kept one has a class and a box and window Pillow accepts;
      otherwise it stops with the missing key or Pillow's error. */
  lemma {:induction false} ScanSucceeds(img: Picture, preds: seq<Prediction>, outputDir: string, fmt: Formats)
    ensures Scan(img, preds, outputDir, fmt).Ok?
        <==> forall k :: 0 <= k < |preds| ==>
               preds[k].confidence.Some? && (Accepted(preds[k]) ==> preds[k].cls.Some? && Croppable(img, preds[k]))
    ensures Scan(img, preds, outputDir, fmt).Err? ==> Scan(img, preds, outputDir, fmt).message in ScanErrors
  {
    if preds != [] {
      var init := preds[..|preds| - 1];
      var last := preds[|preds| - 1];
      ScanSucceeds(img, init, outputDir, fmt);
      var prev := Scan(img, init, outputDir, fmt);
      assert Scan(img, preds, outputDir, fmt) == ScanThen(img, prev, last, |preds| - 1, outputDir, fmt);
      if prev.Ok? {
        ScanOneOk(img, prev.value, last, |preds| - 1, outputDir, fmt);
      }
      assert forall k :: 0 <= k < |init| ==> init[k] == preds[k];
    }
  }

  /** A completed loop made one crop and one local file per prediction that
      passes the cut-off, in order: each crop carries the prediction's class and
      confidence, its box as top-left corner and size, and the padded window
      resized to 300 x 300. */
  lemma {:induction false} ScanKeepsAccepted(img: Picture, preds: seq<Prediction>, outputDir: string, fmt: Formats)
    requires Scan(img, preds, outputDir, fmt).Ok?
    ensures var st := Scan(img, preds, outputDir, fmt).value;
      var kept := Kept(preds);
      && |st.crops| == |kept| && |st.cropPaths| == |kept|
      && forall k :: 0 <= k < |kept| ==>
           && kept[k].cls == Some(st.crops[k].prediction)
           && kept[k].confidence == Some(st.crops[k].confidence)
           && st.crops[k].bbox == BboxOf(PredToXyxy(kept[k]))
           && st.crops[k].image == CropPicture(img, kept[k])
  {
    if preds != [] {
      var init := preds[..|preds| - 1];
      var last := preds[|preds| - 1];
      var prev := Scan(img, init, outputDir, fmt);
      assert Scan(img, preds, outputDir, fmt) == ScanThen(img, prev, last, |preds| - 1, outputDir, fmt);
      assert prev.Ok?;
      ScanKeepsAccepted(img, init, outputDir, fmt);
      ScanOneKept(img, prev.value, last, |preds| - 1, outputDir, fmt);
      var st := Scan(img, preds, outputDir, fmt).value;
      var kept := Kept(preds);
      var before := Kept(init);
      assert kept == before + (if Accepted(last) then [last] else []);
      assert |st.crops| == |kept| && |st.cropPaths| == |kept|;
      forall k | 0 <= k < |kept|
        ensures && kept[k].cls == Some(st.crops[k].prediction)
                && kept[k].confidence == Some(st.crops[k].confidence)
                && st.crops[k].bbox == BboxOf(PredToXyxy(kept[k]))
                && st.crops[k].image == CropPicture(img, kept[k])
      {
        if k < |before| {
          assert kept[k] == before[k] && st.crops[k] == prev.value.crops[k];
        } else {
          assert kept[k] == last;
        }
      }
    }
  }

  /** A completed pass adds one crop and one local file for a kept
      prediction, and nothing otherwise. */
  lemma ScanOneKept(img: Picture, st: ScanState, p: Prediction, i: nat, outputDir: string, fmt: Formats)
    requires ScanOne(img, st, p, i, outputDir, fmt).Ok?
    ensures var next := ScanOne(img, st, p, i, outputDir, fmt).value;
      if Accepted(p) then
        && p.cls.Some?
        && next.crops == st.crops + [KeptCrop(CropPicture(img, p), p.cls.value, p.confidence.value, BboxOf(PredToXyxy(p)))]
        && |next.cropPaths| == |st.cropPaths| + 1
      else next == st
  {
  }

  /** The annotated image is the original with one box drawn per kept prediction. */
  lemma {:induction false} ScanAnnotatedSize(img: Picture, preds: seq<Prediction>, outputDir: string, fmt: Formats)
    requires Scan(img, preds, outputDir, fmt).Ok?
    ensures Width(Scan(img, preds, outputDir, fmt).value.annotated) == Width(img)
    ensures Height(Scan(img, preds, outputDir, fmt).value.annotated) == Height(img)
  {
    if preds != [] {
      ScanAnnotatedSize(img, preds[..|preds| - 1], outputDir, fmt);
    }
  }

  /** The loop of `detect_pcb_defects` over `enumerate(predictions)`. */
  method ScanPredictions(img: Picture, predictions: seq<Prediction>, outputDir: string, fmt: Formats)
    returns (res: Result<ScanState>)
    ensures res == Scan(img, predictions, outputDir, fmt)
  {
    var annotated := img;
    var cropsData: seq<KeptCrop> := [];
    var cropPaths: seq<string> := [];
    for i := 0 to |predictions|
      invariant Scan(img, predictions[..i], outputDir, fmt) == Ok(ScanState(annotated, cropsData, cropPaths))
    {
      var detection := predictions[i];
      ScanStep(img, predictions, i, outputDir, fmt);
      if detection.confidence.None? {
        ScanErrSticks(img, predictions, i + 1, outputDir, fmt);
        return Err(ConfidenceKeyError);
      }
      var confidence := detection.confidence.value;
      if confidence < ConfidenceThreshold {
        continue;
      }
      if detection.cls.None? {
        ScanErrSticks(img, predictions, i + 1, outputDir, fmt);
        return Err(ClassKeyError);
      }
      var className := detection.cls.value;
      var c := PredToXyxy(detection);
      var drawError := RectangleError(c);
      if drawError.Some? {
        ScanErrSticks(img, predictions, i + 1, outputDir, fmt);
        return Err(drawError.value);
      }
      annotated := Drawn(annotated, c, className + " " + fmt.percent2(confidence));
      var window := CropWindow(c, Width(img), Height(img));
      var cropError := CropError(window);
      if cropError.Some? {
        ScanErrSticks(img, predictions, i + 1, outputDir, fmt);
        return Err(cropError.value);
      }
      var croppedPcb := Cropped(img, window);
      croppedPcb := Resized(croppedPcb, CropSide, CropSide);
      var cropPath := PathJoin(outputDir, "crop_" + IntToString(i) + "_" + className + ".jpg");
      cropPaths := cropPaths + [cropPath];
      cropsData := cropsData + [KeptCrop(croppedPcb, className, confidence, BboxOf(c))];
    }
    assert predictions[..|predictions|] == predictions;
    res := Ok(ScanState(annotated, cropsData, cropPaths));
  }

  // ---------------------------------------------------------------------------
  // the summary text

  function Header(imagePath: string, total: nat): string
  {
    "\U{2705} Analysis complete for `" + imagePath + "`.\n\n"
      + "\U{1F4CA} **Total Defects Found: " + IntToString(total) + "**\n\n"
  }

  function MainBlock(m: MainPayload): string
  {
    "**Main Detected Image (Supabase):**\n"
      + "- ID: `" + m.id + "`\n"
      + "- URL: " + m.publicUrl + "\n"
      + "- Size: " + IntToString(m.width) + " x " + IntToString(m.height) + "\n\n"
  }

  const DetailsHeading: string := "**Detailed Defect List (with Supabase crop URLs):**\n"

  /** The `n`-th entry of the detailed list: its number, the class and
      confidence of prediction `p`, its centre and size, and the URL of the
      saved crop it is paired with. */
  datatype Entry = Entry(n: nat, cls: string, confidence: real, p: Prediction, cropUrl: string)

  /** The entry for prediction `p`, or the missing key that interrupts the list. */
  function DetailEntry(n: nat, p: Prediction, cropUrl: string): Result<Entry>
  {
    if p.confidence.None? then Err(ConfidenceKeyError)
    else if p.cls.None? then Err(ClassKeyError)
    else Ok(Entry(n, p.cls.value, p.confidence.value, p, cropUrl))
  }

  /** The text of an entry. */
  function RenderEntry(e: Entry, fmt: Formats): string
  {
    Join("", [
      "\n**Defect #", IntToString(e.n), ":**\n",
      "  - Type: ", e.cls, "\n",
      "  - Confidence: ", fmt.fixed2(e.confidence * 100.0), "%\n",
      "  - Location (center): X=", fmt.fixed1(e.p.x), ", Y=", fmt.fixed1(e.p.y), "\n",
      "  - Size: Width=", fmt.fixed1(e.p.width), ", Height=", fmt.fixed1(e.p.height), "\n",
      "  - Supabase Crop URL: ", e.cropUrl, "\n"])
  }

  function RenderEntries(es: seq<Entry>, fmt: Formats): seq<string>
  {
    seq(|es|, k requires 0 <= k < |es| => RenderEntry(es[k], fmt))
  }

  lemma RenderEntriesAppend(es: seq<Entry>, e: Entry, fmt: Formats)
    ensures RenderEntries(es + [e], fmt) == RenderEntries(es, fmt) + [RenderEntry(e, fmt)]
  {
    var lhs := RenderEntries(es + [e], fmt);
    var rhs := RenderEntries(es, fmt) + [RenderEntry(e, fmt)];
    forall t | 0 <= t < |es| + 1 ensures lhs[t] == rhs[t] {
    }
  }

  lemma RenderEntriesJoinAppend(es: seq<Entry>, e: Entry, fmt: Formats)
    ensures Join("", RenderEntries(es + [e], fmt)) == Join("", RenderEntries(es, fmt)) + RenderEntry(e, fmt)
  {
    RenderEntriesAppend(es, e, fmt);
    JoinEmptyAppend(RenderEntries(es, fmt), RenderEntry(e, fmt));
  }

  /** The first `n` entries of `zip(predictions, crops_supabase)`. */
  function DetailEntries(preds: seq<Prediction>, crops: seq<CropPayload>, n: nat): Result<seq<Entry>>
    requires n <= |preds| && n <= |crops|
  {
    if n == 0 then Ok([])
    else match DetailEntries(preds, crops, n - 1)
      case Err(m) => Err(m)
      case Ok(es) =>
        match DetailEntry(n, preds[n - 1], crops[n - 1].cropPublicUrl)
        case Err(m) => Err(m)
        case Ok(e) => Ok(es + [e])
  }

  lemma DetailEntriesStep(preds: seq<Prediction>, crops: seq<CropPayload>, i: nat, es: seq<Entry>)
    requires i < |preds| && i < |crops| && DetailEntries(preds, crops, i) == Ok(es)
    ensures var e := DetailEntry(i + 1, preds[i], crops[i].cropPublicUrl);
      DetailEntries(preds, crops, i + 1) == if e.Err? then Err(e.message) else Ok(es + [e.value])
  {
  }

  /** Once an entry has failed, later entries change nothing. */
  lemma {:induction false} DetailEntriesErrSticks(preds: seq<Prediction>, crops: seq<CropPayload>, i: nat, n: nat)
    requires i <= n <= |preds| && n <= |crops|
    requires DetailEntries(preds, crops, i).Err?
    ensures DetailEntries(preds, crops, n) == DetailEntries(preds, crops, i)
    decreases n
  {
    if i < n {
      DetailEntriesErrSticks(preds, crops, i, n - 1);
    }
  }

  /** An entry fails exactly when its prediction lacks a confidence or a class. */
  lemma DetailEntryOk(n: nat, p: Prediction, cropUrl: string)
    ensures DetailEntry(n, p, cropUrl).Ok? <==> p.confidence.Some? && p.cls.Some?
  {
  }

  /** The list fails exactly when one of the first n predictions lacks a
      confidence or a class. */
  lemma {:induction false} DetailEntriesOk(preds: seq<Prediction>, crops: seq<CropPayload>, n: nat)
    requires n <= |preds| && n <= |crops|
    ensures DetailEntries(preds, crops, n).Ok?
        <==> forall k :: 0 <= k < n ==> preds[k].confidence.Some? && preds[k].cls.Some?
  {
    if n > 0 {
      DetailEntriesOk(preds, crops, n - 1);
      DetailEntryOk(n, preds[n - 1], crops[n - 1].cropPublicUrl);
      var prev := DetailEntries(preds, crops, n - 1);
      if prev.Ok? {
        DetailEntriesStep(preds, crops, n - 1, prev.value);
      } else {
        DetailEntriesErrSticks(preds, crops, n - 1, n);
      }
    }
  }

  /** The list pairs the k-th prediction of the UNFILTERED list with the k-th
      saved crop, for k below n. */
  lemma {:induction false} DetailEntriesPairing(preds: seq<Prediction>, crops: seq<CropPayload>, n: nat)
    requires n <= |preds| && n <= |crops|
    requires DetailEntries(preds, crops, n).Ok?
    ensures var es := DetailEntries(preds, crops, n).value;
      && |es| == n
      && forall k :: 0 <= k < n ==> DetailEntry(k + 1, preds[k], crops[k].cropPublicUrl) == Ok(es[k])
  {
    if n > 0 {
      var prev := DetailEntries(preds, crops, n - 1);
      assert prev.Ok?;
      DetailEntriesPairing(preds, crops, n - 1);
      DetailEntriesStep(preds, crops, n - 1, prev.value);
      var entry := DetailEntry(n, preds[n - 1], crops[n - 1].cropPublicUrl);
      var es := prev.value + [entry.value];
      forall k | 0 <= k < n
        ensures DetailEntry(k + 1, preds[k], crops[k].cropPublicUrl) == Ok(es[k])
      {
        if k < n - 1 {
          assert es[k] == prev.value[k];
        }
      }
    }
  }

  function CropLine(k: nat, path: string): string
  {
    "  - Crop #" + IntToString(k + 1) + ": " + path + "\n"
  }

  function CropLines(paths: seq<string>): seq<string>
  {
    seq(|paths|, k requires 0 <= k < |paths| => CropLine(k, paths[k]))
  }

  lemma CropLinesStep(paths: seq<string>, i: nat)
    requires i < |paths|
    ensures CropLines(paths[..i + 1]) == CropLines(paths[..i]) + [CropLine(i, paths[i])]
  {
  }

  function EvidenceHead(annotatedPath: string, count: nat): string
  {
    "\n\n\U{1F4C2} **Local Visual Evidence (for debugging):**\n"
      + "- Annotated Full Image: " + annotatedPath + "\n"
      + "- Total Cropped Images (local): " + IntToString(count) + "\n"
  }

  function Opening(imagePath: string, total: nat, mainImage: MainPayload): string
  {
    Header(imagePath, total) + MainBlock(mainImage) + DetailsHeading
  }

  function Evidence(annotatedPath: string, cropPaths: seq<string>): string
  {
    EvidenceHead(annotatedPath, |cropPaths|) + Join("", CropLines(cropPaths))
  }

  /** The detailed list as text, or the missing key that interrupted it. */
  function DetailsText(preds: seq<Prediction>, crops: seq<CropPayload>, fmt: Formats): Result<string>
  {
    var entries := DetailEntries(preds, crops, Min(|preds|, |crops|));
    if entries.Err? then Err(entries.message) else Ok(Join("", RenderEntries(entries.value, fmt)))
  }

  /** The text `detect_pcb_defects` returns after a save, or the missing key
      that interrupted the detailed list. */
  function Summary(imagePath: string, preds: seq<Prediction>, st: ScanState, saved: Saved,
                   annotatedPath: string, fmt: Formats): Result<string>
  {
    var details := DetailsText(preds, saved.crops, fmt);
    if details.Err? then Err(details.message)
    else Ok(Opening(imagePath, |st.crops|, saved.mainImage) + details.value + Evidence(annotatedPath, st.cropPaths))
  }

  /** One pass of the loop below: a failing entry decides the whole list, and
      a rendered one extends the text. */
  lemma DetailedListStep(preds: seq<Prediction>, crops: seq<CropPayload>, i: nat, n: nat, es: seq<Entry>, fmt: Formats)
    requires i < n && n == Min(|preds|, |crops|) && DetailEntries(preds, crops, i) == Ok(es)
    ensures var e := DetailEntry(i + 1, preds[i], crops[i].cropPublicUrl);
      && (e.Err? ==> DetailEntries(preds, crops, n) == Err(e.message))
      && (e.Ok? ==> DetailEntries(preds, crops, i + 1) == Ok(es + [e.value])
                    && Join("", RenderEntries(es + [e.value], fmt)) == Join("", RenderEntries(es, fmt)) + RenderEntry(e.value, fmt))
  {
    var e := DetailEntry(i + 1, preds[i], crops[i].cropPublicUrl);
    DetailEntriesStep(preds, crops, i, es);
    if e.Err? {
      DetailEntriesErrSticks(preds, crops, i + 1, n);
    } else {
      RenderEntriesJoinAppend(es, e.value, fmt);
    }
  }

  /** The loop over `zip(predictions, crops_supabase)`. */
  method DetailedList(predictions: seq<Prediction>, cropsSupabase: seq<CropPayload>, fmt: Formats)
    returns (res: Result<string>)
    ensures res == DetailsText(predictions, cropsSupabase, fmt)
  {
    var n := Min(|predictions|, |cropsSupabase|);
    var text := "";
    ghost var entries: seq<Entry> := [];
    for i := 0 to n
      invariant DetailEntries(predictions, cropsSupabase, i) == Ok(entries)
      invariant text == Join("", RenderEntries(entries, fmt))
    {
      var p := predictions[i];
      var sCrop := cropsSupabase[i];
      var entry := DetailEntry(i + 1, p, sCrop.cropPublicUrl);
      DetailedListStep(predictions, cropsSupabase, i, n, entries, fmt);
      if entry.Err? {
        return Err(entry.message);
      }
      var line := RenderEntry(entry.value, fmt);
      entries := entries + [entry.value];
      text := text + line;
    }
    assert DetailEntries(predictions, cropsSupabase, n) == Ok(entries);
    res := Ok(text);
  }

  /** The lines about the local debug files. */
  method LocalEvidence(annotatedPath: string, cropPaths: seq<string>) returns (text: string)
    ensures text == Evidence(annotatedPath, cropPaths)
  {
    text := EvidenceHead(annotatedPath, |cropPaths|);
    ghost var head := text;
    for i := 0 to |cropPaths|
      invariant text == head + Join("", CropLines(cropPaths[..i]))
    {
      var line := CropLine(i, cropPaths[i]);
      CropLinesStep(cropPaths, i);
      JoinEmptyAppend(CropLines(cropPaths[..i]), line);
      AppendAssoc(head, Join("", CropLines(cropPaths[..i])), line);
      text := text + line;
    }
    assert cropPaths[..|cropPaths|] == cropPaths;
  }

  /** Step 6 of `detect_pcb_defects`: the summary built with `+=`. */
  method BuildSummary(imagePath: string, predictions: seq<Prediction>, st: ScanState, saved: Saved,
                      annotatedPath: string, fmt: Formats)
    returns (res: Result<string>)
    ensures res == Summary(imagePath, predictions, st, saved, annotatedPath, fmt)
  {
    var mainImage := saved.mainImage;
    var summary := Header(imagePath, |st.crops|);
    summary := summary + MainBlock(mainImage);
    summary := summary + DetailsHeading;
    var details := DetailedList(predictions, saved.crops, fmt);
    if details.Err? {
      return Err(details.message);
    }
    summary := summary + details.value;
    var evidence := LocalEvidence(annotatedPath, st.cropPaths);
    summary := summary + evidence;
    res := Ok(summary);
  }

  // ---------------------------------------------------------------------------
  // the whole tool

  /** What `save_via_supabase_from_agent` hands to the agent's save: the
      annotated image as PNG with its size and the file's base name ... */
  function SaverMain(st: ScanState, imagePath: string): MainUpload
  {
    MainUpload(Png(st.annotated), Width(st.annotated), Height(st.annotated), Some(Basename(imagePath)))
  }

  /** ... and each crop as PNG with its size, class, confidence and bbox. */
  function SaverCrops(crops: seq<KeptCrop>): seq<CropUpload>
  {
    seq(|crops|, k requires 0 <= k < |crops| =>
      CropUpload(Png(crops[k].image), Width(crops[k].image), Height(crops[k].image),
                 crops[k].prediction, crops[k].confidence, Some(crops[k].bbox)))
  }

  function AnnotatedPath(outputDir: string, imagePath: string): string
  {
    PathJoin(outputDir, "detected_" + Basename(imagePath))
  }

  /** Whether a call reaches the save: the file exists, inference returned a
      non-empty prediction list, and the loop completed. */
  predicate Saves(imagePath: string, files: set<string>, inference: Inference, img: Picture,
                  outputDir: string, fmt: Formats)
  {
    && imagePath in files
    && inference.Inferred? && inference.predictions.Some? && inference.predictions.value != []
    && Scan(img, inference.predictions.value, outputDir, fmt).Ok?
  }

  /** The saved payload of a call that reaches the save, when the store's
      serial is `s` and its public URL prefix is `prefix`. */
  function SavedFor(imagePath: string, st: ScanState, s: nat, prefix: string): Saved
  {
    SavedPayload(s, prefix, SaverMain(st, imagePath), SaverCrops(st.crops), None, Some(AgentNote))
  }

  /** The reply of `detect_pcb_defects`. */
  function DetectReply(imagePath: string, files: set<string>, inference: Inference, img: Picture,
                       outputDir: string, fmt: Formats, s: nat, prefix: string): string
  {
    if imagePath !in files then NotFoundReply(imagePath)
    else match inference
      case InferenceFailed(reason) => ErrorPrefix + reason
      case Inferred(None) => NoPredictionsReply
      case Inferred(Some(preds)) =>
        if preds == [] then NoDefectsReply
        else match Scan(img, preds, outputDir, fmt)
          case Err(m) => ErrorPrefix + m
          case Ok(st) =>
            match Summary(imagePath, preds, st, SavedFor(imagePath, st, s, prefix), AnnotatedPath(outputDir, imagePath), fmt)
            case Err(m) => ErrorPrefix + m
            case Ok(text) => text
  }

  /** A box past the right edge of a 10 x 10 image: its window is clamped to
      start at x = 97 and end at x = 10, Pillow refuses to crop it, and the
      tool replies with that error without saving anything. */
  lemma BoxBeyondEdgeRejected(imagePath: string, files: set<string>, outputDir: string, fmt: Formats,
                              s: nat, prefix: string)
    requires imagePath in files
    ensures var img := Loaded(imagePath, 10, 10);
      var inference := Inferred(Some([Prediction(100.0, 5.0, 4.0, 4.0, Some("short"), Some(0.9))]));
      && !Saves(imagePath, files, inference, img, outputDir, fmt)
      && DetectReply(imagePath, files, inference, img, outputDir, fmt, s, prefix) == ErrorPrefix + CropRightError
  {
    var img := Loaded(imagePath, 10, 10);
    var p := Prediction(100.0, 5.0, 4.0, 4.0, Some("short"), Some(0.9));
    TruncOfInteger(98);
    TruncOfInteger(102);
    var c := PredToXyxy(p);
    assert c.x1 == 98 && c.x2 == 102;
    var window := CropWindow(c, 10, 10);
    assert window.x1 == 97 && window.x2 == 10;
    assert [p][..0] == [];
    assert Scan(img, [p], outputDir, fmt) == ScanOne(img, ScanState(img, [], []), p, 0, outputDir, fmt);
  }

  /** A missing file is reported before anything else, a failed inference as an
      error, a result without predictions or with none by its fixed text, and
      an interrupted loop by its error; none of these reaches the save. */
  lemma EarlyReplies(imagePath: string, files: set<string>, inference: Inference, img: Picture,
                     outputDir: string, fmt: Formats, s: nat, prefix: string)
    ensures imagePath !in files ==>
      DetectReply(imagePath, files, inference, img, outputDir, fmt, s, prefix) == "Error: Image file not found at " + imagePath
    ensures imagePath in files && inference.InferenceFailed? ==>
      DetectReply(imagePath, files, inference, img, outputDir, fmt, s, prefix) == ErrorPrefix + inference.reason
    ensures imagePath in files && inference == Inferred(None) ==>
      DetectReply(imagePath, files, inference, img, outputDir, fmt, s, prefix) == NoPredictionsReply
    ensures imagePath in files && inference == Inferred(Some([])) ==>
      DetectReply(imagePath, files, inference, img, outputDir, fmt, s, prefix) == NoDefectsReply
    ensures imagePath in files && inference.Inferred? && inference.predictions.Some?
            && inference.predictions.value != [] && Scan(img, inference.predictions.value, outputDir, fmt).Err? ==>
      && !Saves(imagePath, files, inference, img, outputDir, fmt)
      && DetectReply(imagePath, files, inference, img, outputDir, fmt, s, prefix)
         == ErrorPrefix + Scan(img, inference.predictions.value, outputDir, fmt).message
  {
  }

  /** What a call that reaches the save stores: the annotated image under the
      file's base name with the agent's note and no board code, and one crop
      per prediction that passes the cut-off, in order, 300 x 300, carrying
      its class, confidence and box. */
  lemma SavedCropsAreKept(imagePath: string, files: set<string>, inference: Inference, img: Picture,
                          outputDir: string, fmt: Formats, s: nat, prefix: string)
    requires Saves(imagePath, files, inference, img, outputDir, fmt)
    ensures var preds := inference.predictions.value;
      var st := Scan(img, preds, outputDir, fmt).value;
      var saved := SavedFor(imagePath, st, s, prefix);
      var kept := Kept(preds);
      && saved.mainImage.originalFilename == Some(Basename(imagePath))
      && saved.mainImage.note == Some(AgentNote) && saved.mainImage.boardCode == None
      && saved.mainImage.width == Width(img) && saved.mainImage.height == Height(img)
      && |saved.crops| == |kept|
      && forall k :: 0 <= k < |kept| ==>
           && kept[k].cls == Some(saved.crops[k].prediction)
           && kept[k].confidence == Some(saved.crops[k].confidence)
           && saved.crops[k].bbox == Some(BboxOf(PredToXyxy(kept[k])))
           && saved.crops[k].width == CropSide && saved.crops[k].height == CropSide
  {
    var preds := inference.predictions.value;
    var st := Scan(img, preds, outputDir, fmt).value;
    var kept := Kept(preds);
    var main := SaverMain(st, imagePath);
    var ups := SaverCrops(st.crops);
    var saved := SavedFor(imagePath, st, s, prefix);
    assert saved == SavedPayload(s, prefix, main, ups, None, Some(AgentNote));
    ScanKeepsAccepted(img, preds, outputDir, fmt);
    ScanAnnotatedSize(img, preds, outputDir, fmt);
    assert |saved.crops| == |ups| == |st.crops|;
    forall k | 0 <= k < |kept|
      ensures kept[k].cls == Some(saved.crops[k].prediction)
      ensures kept[k].confidence == Some(saved.crops[k].confidence)
      ensures saved.crops[k].bbox == Some(BboxOf(PredToXyxy(kept[k])))
      ensures saved.crops[k].width == CropSide && saved.crops[k].height == CropSide
    {
      var c := st.crops[k];
      assert saved.crops[k] == CropPayloadAt(s, prefix, ups[k], k);
      assert ups[k] == CropUpload(Png(c.image), Width(c.image), Height(c.image), c.prediction, c.confidence, Some(c.bbox));
      assert c.image == CropPicture(img, kept[k]);
      CropPictureSize(img, kept[k]);
    }
  }

  /** When every prediction has a confidence, the detailed list can only be
      interrupted by a missing class. */
  lemma {:induction false} DetailsFailOnlyOnClass(preds: seq<Prediction>, crops: seq<CropPayload>, n: nat)
    requires n <= |preds| && n <= |crops|
    requires forall k :: 0 <= k < |preds| ==> preds[k].confidence.Some?
    ensures DetailEntries(preds, crops, n).Err? ==> DetailEntries(preds, crops, n).message == ClassKeyError
  {
    if n > 0 {
      DetailsFailOnlyOnClass(preds, crops, n - 1);
    }
  }

  /** A summary opens with the analysed path and the number of kept crops. */
  lemma SummaryStartsWithHeader(imagePath: string, preds: seq<Prediction>, st: ScanState, saved: Saved,
                                annotatedPath: string, fmt: Formats)
    requires Summary(imagePath, preds, st, saved, annotatedPath, fmt).Ok?
    ensures Header(imagePath, |st.crops|) <= Summary(imagePath, preds, st, saved, annotatedPath, fmt).value
  {
    var header := Header(imagePath, |st.crops|);
    var middle := MainBlock(saved.mainImage) + DetailsHeading;
    var details := DetailsText(preds, saved.crops, fmt).value;
    var evidence := Evidence(annotatedPath, st.cropPaths);
    AppendAssoc(header, MainBlock(saved.mainImage), DetailsHeading);
    AppendAssoc(header, middle, details);
    AppendAssoc(header, middle + details, evidence);
    PrefixOfAppend(header, middle + details + evidence);
  }

  /** The reply of a call that reaches the save is its summary, or the error
      text of the key that interrupted the summary. */
  lemma ReplyAfterSave(imagePath: string, files: set<string>, inference: Inference, img: Picture,
                       outputDir: string, fmt: Formats, s: nat, prefix: string)
    requires Saves(imagePath, files, inference, img, outputDir, fmt)
    ensures var preds := inference.predictions.value;
      var st := Scan(img, preds, outputDir, fmt).value;
      var summary := Summary(imagePath, preds, st, SavedFor(imagePath, st, s, prefix), AnnotatedPath(outputDir, imagePath), fmt);
      DetectReply(imagePath, files, inference, img, outputDir, fmt, s, prefix)
        == if summary.Ok? then summary.value else ErrorPrefix + summary.message
  {
    var preds := inference.predictions.value;
    assert inference == Inferred(Some(preds)) && preds != [];
    var st := Scan(img, preds, outputDir, fmt).value;
    assert Scan(img, preds, outputDir, fmt) == Ok(st);
  }

  /** A summary reports as "Total Defects Found" the number of predictions with
      confidence at least 0.3; its detailed list has that many entries, pairing
      the first predictions of the unfiltered list with the saved crops; it
      fails only on a missing class among those predictions. */
  lemma SummaryCountsKept(imagePath: string, files: set<string>, inference: Inference, img: Picture,
                          outputDir: string, fmt: Formats, s: nat, prefix: string)
    requires Saves(imagePath, files, inference, img, outputDir, fmt)
    ensures var preds := inference.predictions.value;
      var st := Scan(img, preds, outputDir, fmt).value;
      var saved := SavedFor(imagePath, st, s, prefix);
      var reply := DetectReply(imagePath, files, inference, img, outputDir, fmt, s, prefix);
      && Min(|preds|, |saved.crops|) == |Kept(preds)|
      && (DetailEntries(preds, saved.crops, |Kept(preds)|).Ok? ==> Header(imagePath, |Kept(preds)|) <= reply)
      && (DetailEntries(preds, saved.crops, |Kept(preds)|).Err? ==> reply == ErrorPrefix + ClassKeyError)
  {
    var preds := inference.predictions.value;
    var st := Scan(img, preds, outputDir, fmt).value;
    var saved := SavedFor(imagePath, st, s, prefix);
    ScanKeepsAccepted(img, preds, outputDir, fmt);
    ScanSucceeds(img, preds, outputDir, fmt);
    var n := |Kept(preds)|;
    assert |saved.crops| == |SaverCrops(st.crops)| == n;
    DetailsFailOnlyOnClass(preds, saved.crops, n);
    ReplyAfterSave(imagePath, files, inference, img, outputDir, fmt, s, prefix);
    var summary := Summary(imagePath, preds, st, saved, AnnotatedPath(outputDir, imagePath), fmt);
    if summary.Ok? {
      SummaryStartsWithHeader(imagePath, preds, st, saved, AnnotatedPath(outputDir, imagePath), fmt);
    }
  }

  /** A prediction below the cut-off followed by a kept one: the loop skips
      the first and keeps only the second. */
  lemma ScanSkipsThenKeeps(img: Picture, low: Prediction, high: Prediction, outputDir: string, fmt: Formats)
    requires low.confidence.Some? && low.confidence.value < ConfidenceThreshold
    requires Accepted(high) && high.cls.Some? && Croppable(img, high)
    ensures Scan(img, [low, high], outputDir, fmt).Ok?
    ensures Scan(img, [low, high], outputDir, fmt).value.crops
         == [KeptCrop(CropPicture(img, high), high.cls.value, high.confidence.value, BboxOf(PredToXyxy(high)))]
  {
    var preds := [low, high];
    assert preds[..1] == [low];
    assert [low][..0] == [];
    var st0 := ScanState(img, [], []);
    assert Scan(img, [low], outputDir, fmt) == Ok(st0);
    assert Scan(img, preds, outputDir, fmt) == ScanOne(img, st0, high, 1, outputDir, fmt);
  }

  /** The detailed list is not aligned with the crops: when a prediction below
      the cut-off comes before a kept one, the list's only entry describes the
      skipped prediction but shows the URL of the crop made for the kept one. */
  lemma DetailsMisaligned(img: Picture, low: Prediction, high: Prediction, outputDir: string, fmt: Formats,
                          imagePath: string, s: nat, prefix: string)
    requires low.confidence.Some? && low.confidence.value < ConfidenceThreshold && low.cls.Some?
    requires Accepted(high) && high.cls.Some? && Croppable(img, high)
    ensures Scan(img, [low, high], outputDir, fmt).Ok?
    ensures var saved := SavedFor(imagePath, Scan(img, [low, high], outputDir, fmt).value, s, prefix);
      && |saved.crops| == 1 && saved.crops[0].prediction == high.cls.value
      && DetailsText([low, high], saved.crops, fmt)
         == Ok(RenderEntry(Entry(1, low.cls.value, low.confidence.value, low, saved.crops[0].cropPublicUrl), fmt))
  {
    ScanSkipsThenKeeps(img, low, high, outputDir, fmt);
    CropPictureSize(img, high);
    var saved := SavedFor(imagePath, Scan(img, [low, high], outputDir, fmt).value, s, prefix);
    assert |saved.crops| == 1 && saved.crops[0].prediction == high.cls.value;
    OneCropDetails(low, high, saved.crops, fmt);
  }

  /** With two predictions and one saved crop, the detailed list has the one
      entry for the first prediction, paired with that crop. */
  lemma OneCropDetails(first: Prediction, second: Prediction, crops: seq<CropPayload>, fmt: Formats)
    requires |crops| == 1 && first.confidence.Some? && first.cls.Some?
    ensures DetailsText([first, second], crops, fmt)
         == Ok(RenderEntry(Entry(1, first.cls.value, first.confidence.value, first, crops[0].cropPublicUrl), fmt))
  {
    var preds := [first, second];
    var entry := DetailEntry(1, first, crops[0].cropPublicUrl);
    assert preds[0] == first;
    DetailEntriesStep(preds, crops, 0, []);
    assert entry.Ok? && [] + [entry.value] == [entry.value];
    assert DetailEntries(preds, crops, 1) == Ok([entry.value]);
    assert RenderEntries([entry.value], fmt) == [RenderEntry(entry.value, fmt)];
    assert Join("", [RenderEntry(entry.value, fmt)]) == RenderEntry(entry.value, fmt);
  }

  /** `detect_pcb_defects(image_path)`: `files` are the paths that exist,
      `inference` what the model returned for the image, `img` the image
      loaded from it and `outputDir` the local debug folder. */
  method DetectPcbDefects(store: Store, imagePath: string, files: set<string>, inference: Inference, img: Picture,
                          outputDir: string, fmt: Formats)
    returns (reply: string)
    modifies store
    ensures reply == DetectReply(imagePath, files, inference, img, outputDir, fmt, old(store.serial), store.publicPrefix)
    ensures !Saves(imagePath, files, inference, img, outputDir, fmt) ==>
      && store.serial == old(store.serial) && store.journal == old(store.journal)
      && store.blobs == old(store.blobs) && store.mainRows == old(store.mainRows) && store.cropRows == old(store.cropRows)
    ensures Saves(imagePath, files, inference, img, outputDir, fmt) ==>
      var st := Scan(img, inference.predictions.value, outputDir, fmt).value;
      var main := SaverMain(st, imagePath);
      var crops := SaverCrops(st.crops);
      && store.serial == old(store.serial) + 2 + 2 * |crops|
      && store.journal == old(store.journal) + PersistWrites(old(store.serial), |crops|)
      && store.blobs == old(store.blobs) + PersistBlobs(old(store.serial), main, crops)
      && store.mainRows == old(store.mainRows) + [MainRowAt(old(store.serial), store.publicPrefix, main, None, Some(AgentNote))]
      && store.cropRows == old(store.cropRows) + CropRowsAt(old(store.serial), store.publicPrefix, crops)
  {
    if imagePath !in files {
      return NotFoundReply(imagePath);
    }
    if inference.InferenceFailed? {
      return ErrorPrefix + inference.reason;
    }
    if inference.predictions.None? {
      return NoPredictionsReply;
    }
    var predictions := inference.predictions.value;
    if predictions == [] {
      return NoDefectsReply;
    }
    var scanned := ScanPredictions(img, predictions, outputDir, fmt);
    if scanned.Err? {
      return ErrorPrefix + scanned.message;
    }
    var st := scanned.value;
    var annotatedPath := PathJoin(outputDir, "detected_" + Basename(imagePath));
    var supabasePayload := SaveDetectionFromAgentBytesAndGetUrls(
      store, SaverMain(st, imagePath), SaverCrops(st.crops), None, Some(AgentNote));
    var summary := BuildSummary(imagePath, predictions, st, supabasePayload, annotatedPath, fmt);
    if summary.Err? {
      return ErrorPrefix + summary.message;
    }
    reply := summary.value;
  }
}
