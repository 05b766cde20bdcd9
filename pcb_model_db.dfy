/** The detection service's `pcb_db.py` beyond the shared helpers: the save
    that runs the detector and stores its result, and `get_all_detections`,
    which lists every main image with the defect crops that refer to it. */
module PcbModelDb {
  import opened Common
  import opened Geometry
  import opened Imaging
  import opened SupabaseStore
  import opened PcbModel

  // ---------------------------------------------------------------------------
  // save_detection_to_supabase_and_get_urls

  /** The main-image part of a detection, as the save reads it. */
  function MainUploadOf(a: AnnotatedImage): MainUpload
  {
    MainUpload(a.bytes, a.width, a.height, Some(a.originalFilename))
  }

  /** The crop part of a detection; every crop of the detector carries a bbox. */
  function CropUploads(crops: seq<DetectedCrop>): seq<CropUpload>
  {
    seq(|crops|, k requires 0 <= k < |crops| =>
      CropUpload(crops[k].bytes, crops[k].width, crops[k].height, crops[k].prediction, crops[k].confidence,
                 Some(crops[k].bbox)))
  }

  /** Runs the detector on the image at `imagePath` (whose loaded picture is
      `img` and whose inference result is `result`), then uploads and inserts
      the annotated image and each crop in order. When the detector raises,
      the error propagates and nothing is stored. */
  method SaveDetectionToSupabaseAndGetUrls(
    store: Store, imagePath: string, img: Picture, result: InferenceResult, fixed2: real -> string,
    boardCode: Option<string> := None, note: Option<string> := None)
    returns (saved: Result<Saved>)
    modifies store
    ensures Detection(imagePath, img, result, fixed2).Err? ==>
      && saved == Err(Detection(imagePath, img, result, fixed2).message)
      && store.serial == old(store.serial) && store.journal == old(store.journal)
      && store.blobs == old(store.blobs) && store.mainRows == old(store.mainRows) && store.cropRows == old(store.cropRows)
    ensures Detection(imagePath, img, result, fixed2).Ok? ==>
      var d := Detection(imagePath, img, result, fixed2).value;
      var main := MainUploadOf(d.annotatedImage);
      var crops := CropUploads(d.crops);
      && store.serial == old(store.serial) + 2 + 2 * |crops|
      && store.journal == old(store.journal) + PersistWrites(old(store.serial), |crops|)
      && store.blobs == old(store.blobs) + PersistBlobs(old(store.serial), main, crops)
      && store.mainRows == old(store.mainRows) + [MainRowAt(old(store.serial), store.publicPrefix, main, boardCode, note)]
      && store.cropRows == old(store.cropRows) + CropRowsAt(old(store.serial), store.publicPrefix, crops)
      && saved == Ok(SavedPayload(old(store.serial), store.publicPrefix, main, crops, boardCode, note))
  {
    var detectionResult := RunPcbDetection(imagePath, img, result, fixed2);
    if detectionResult.Err? {
      return Err(detectionResult.message);
    }
    var annotated := detectionResult.value.annotatedImage;
    var payload := Persist(store, MainUploadOf(annotated), CropUploads(detectionResult.value.crops), boardCode, note);
    saved := Ok(payload);
  }

  /** What the save returns for a detection: the main image keeps the file's
      base name, and there is one crop entry per prediction, in order, with
      the prediction's class (or "unknown"), confidence (or 0.0) and its box. */
  lemma SavedDetectionPayload(
    s: nat, prefix: string, imagePath: string, img: Picture, result: InferenceResult, fixed2: real -> string,
    boardCode: Option<string>, note: Option<string>)
    requires Detection(imagePath, img, result, fixed2).Ok?
    ensures var d := Detection(imagePath, img, result, fixed2).value;
      var saved := SavedPayload(s, prefix, MainUploadOf(d.annotatedImage), CropUploads(d.crops), boardCode, note);
      var preds := Predictions(result);
      && saved.mainImage.originalFilename == Some(Basename(imagePath))
      && saved.mainImage.boardCode == boardCode && saved.mainImage.note == note
      && |saved.crops| == |preds|
      && forall k :: 0 <= k < |preds| ==>
           && saved.crops[k].prediction == preds[k].cls.GetOr(UnknownClass)
           && saved.crops[k].confidence == preds[k].confidence.GetOr(0.0)
           && saved.crops[k].bbox == Some(BboxOf(PredToXyxy(preds[k])))
  {
    var d := Detection(imagePath, img, result, fixed2).value;
    SavedPayloadFaithful(s, prefix, MainUploadOf(d.annotatedImage), CropUploads(d.crops), boardCode, note);
  }

  // ---------------------------------------------------------------------------
  // get_all_detections

  /** The `bbox` of a listed defect, rebuilt from the four bbox columns. */
  datatype ListedBbox = ListedBbox(x: Option<int>, y: Option<int>, w: Option<int>, h: Option<int>)

  datatype Defect = Defect(id: string, prediction: string, confidence: real, bbox: ListedBbox, timestamp: nat)

  datatype Item = Item(
    mainImageId: string, mainImageUrl: string, storagePath: string,
    originalFilename: Option<string>, boardCode: Option<string>, note: Option<string>,
    timestamp: nat, defects: seq<Defect>)

  /** The crop rows whose `main_image_id` is `mid`, in table order. */
  function RowsOf(mid: string, crops: seq<Stored<CropColumns>>): (group: seq<Stored<CropColumns>>)
    ensures |group| <= |crops|
    ensures forall k :: 0 <= k < |group| ==> group[k] in crops && group[k].cols.mainImageId == Some(mid)
  {
    if crops == [] then []
    else var c := crops[|crops| - 1];
      RowsOf(mid, crops[..|crops| - 1]) + (if c.cols.mainImageId == Some(mid) then [c] else [])
  }

  function DefectOf(c: Stored<CropColumns>): Defect
  {
    Defect(c.id, c.cols.prediction, c.cols.confidence,
           ListedBbox(c.cols.bboxX, c.cols.bboxY, c.cols.bboxWidth, c.cols.bboxHeight), c.createdAt)
  }

  function DefectsOf(group: seq<Stored<CropColumns>>): seq<Defect>
  {
    seq(|group|, k requires 0 <= k < |group| => DefectOf(group[k]))
  }

  function ItemOf(m: Stored<MainColumns>, group: seq<Stored<CropColumns>>): Item
  {
    Item(m.id, m.cols.publicUrl, m.cols.storagePath, m.cols.originalFilename, m.cols.boardCode, m.cols.note,
         m.createdAt, DefectsOf(group))
  }

  /** One item per main row, in table order, each listing the crops that refer to it. */
  function Listing(mains: seq<Stored<MainColumns>>, crops: seq<Stored<CropColumns>>): seq<Item>
  {
    seq(|mains|, i requires 0 <= i < |mains| => ItemOf(mains[i], RowsOf(mains[i].id, crops)))
  }

  lemma RowsOfStep(mid: string, crops: seq<Stored<CropColumns>>, j: nat)
    requires j < |crops|
    ensures RowsOf(mid, crops[..j + 1])
         == RowsOf(mid, crops[..j]) + (if crops[j].cols.mainImageId == Some(mid) then [crops[j]] else [])
  {
    assert crops[..j + 1][..j] == crops[..j];
  }

  /** A crop row is grouped under `mid` exactly when it is in the table and refers to `mid`. */
  lemma {:induction false} RowsOfMembership(mid: string, crops: seq<Stored<CropColumns>>, c: Stored<CropColumns>)
    ensures c in RowsOf(mid, crops) <==> c in crops && c.cols.mainImageId == Some(mid)
  {
    if crops != [] {
      var init := crops[..|crops| - 1];
      RowsOfMembership(mid, init, c);
      assert crops == init + [crops[|crops| - 1]];
    }
  }

  /** Grouping distributes over concatenation: table order is kept within a group. */
  lemma {:induction false} RowsOfAppend(mid: string, a: seq<Stored<CropColumns>>, b: seq<Stored<CropColumns>>)
    ensures RowsOf(mid, a + b) == RowsOf(mid, a) + RowsOf(mid, b)
    decreases |b|
  {
    if b == [] {
      assert a + b == a;
    } else {
      var b' := b[..|b| - 1];
      assert (a + b)[..|a + b| - 1] == a + b';
      RowsOfAppend(mid, a, b');
    }
  }

  /** Rows that all refer to `mid` are grouped under it unchanged. */
  lemma {:induction false} RowsOfAllReferring(mid: string, crops: seq<Stored<CropColumns>>)
    requires forall k :: 0 <= k < |crops| ==> crops[k].cols.mainImageId == Some(mid)
    ensures RowsOf(mid, crops) == crops
  {
    if crops != [] {
      var init := crops[..|crops| - 1];
      RowsOfAllReferring(mid, init);
      assert crops == init + [crops[|crops| - 1]];
    }
  }

  /** Rows none of which refers to `mid` leave its group empty. */
  lemma {:induction false} RowsOfNoneReferring(mid: string, crops: seq<Stored<CropColumns>>)
    requires forall k :: 0 <= k < |crops| ==> crops[k].cols.mainImageId != Some(mid)
    ensures RowsOf(mid, crops) == []
  {
    if crops != [] {
      RowsOfNoneReferring(mid, crops[..|crops| - 1]);
    }
  }

  /** Every main row is listed once, in order, with its own columns; each listed
      defect comes from a crop row referring to that main row, and every such
      crop row is listed under it. A crop row without a main image is listed nowhere. */
  lemma ListingFaithful(mains: seq<Stored<MainColumns>>, crops: seq<Stored<CropColumns>>)
    ensures var items := Listing(mains, crops);
      && |items| == |mains|
      && (forall i :: 0 <= i < |mains| ==>
            && items[i].mainImageId == mains[i].id
            && items[i].mainImageUrl == mains[i].cols.publicUrl
            && items[i].storagePath == mains[i].cols.storagePath
            && items[i].originalFilename == mains[i].cols.originalFilename
            && items[i].boardCode == mains[i].cols.boardCode
            && items[i].note == mains[i].cols.note
            && items[i].timestamp == mains[i].createdAt)
      && (forall i, d :: 0 <= i < |mains| && d in items[i].defects ==>
            exists c :: c in crops && c.cols.mainImageId == Some(mains[i].id) && d == DefectOf(c))
      && (forall i, c :: 0 <= i < |mains| && c in crops && c.cols.mainImageId == Some(mains[i].id) ==>
            DefectOf(c) in items[i].defects)
  {
    var items := Listing(mains, crops);
    forall i, d | 0 <= i < |mains| && d in items[i].defects
      ensures exists c :: c in crops && c.cols.mainImageId == Some(mains[i].id) && d == DefectOf(c)
    {
      var group := RowsOf(mains[i].id, crops);
      var k :| 0 <= k < |group| && d == DefectOf(group[k]);
      RowsOfMembership(mains[i].id, crops, group[k]);
    }
    forall i, c | 0 <= i < |mains| && c in crops && c.cols.mainImageId == Some(mains[i].id)
      ensures DefectOf(c) in items[i].defects
    {
      var group := RowsOf(mains[i].id, crops);
      RowsOfMembership(mains[i].id, crops, c);
      var k :| 0 <= k < |group| && group[k] == c;
      assert items[i].defects[k] == DefectOf(c);
    }
  }

  /** The bbox written by a save reads back as the four stored numbers when it
      was truthy, and as four missing values otherwise. */
  lemma BboxRoundTrip(s: nat, prefix: string, crop: CropUpload, k: nat)
    ensures var d := DefectOf(CropRowAt(s, prefix, crop, k));
      && d.id == CropId(s, k)
      && d.prediction == crop.prediction && d.confidence == crop.confidence
      && (Truthy(crop.bbox) ==> d.bbox == ListedBbox(Lookup(crop.bbox.value, "x"), Lookup(crop.bbox.value, "y"),
                                                     Lookup(crop.bbox.value, "w"), Lookup(crop.bbox.value, "h")))
      && (!Truthy(crop.bbox) ==> d.bbox == ListedBbox(None, None, None, None))
  {
  }

  /** A box of the detector lists back as exactly its corner, width and height. */
  lemma DetectorBboxRoundTrip(s: nat, prefix: string, crop: CropUpload, k: nat, c: Corners)
    requires crop.bbox == Some(BboxOf(c))
    ensures DefectOf(CropRowAt(s, prefix, crop, k)).bbox
         == ListedBbox(Some(c.x1), Some(c.y1), Some(c.x2 - c.x1), Some(c.y2 - c.y1))
  {
    assert "x" in BboxOf(c);
    BboxRoundTrip(s, prefix, crop, k);
  }

  /** After a save whose main id no earlier crop row refers to, listing the store
      shows the new main image last, with exactly the saved crops as its
      defects, in the order they were saved. */
  lemma SavedThenListed(
    s: nat, prefix: string, oldMains: seq<Stored<MainColumns>>, oldCrops: seq<Stored<CropColumns>>,
    main: MainUpload, crops: seq<CropUpload>, boardCode: Option<string>, note: Option<string>)
    requires forall k :: 0 <= k < |oldCrops| ==> oldCrops[k].cols.mainImageId != Some(MainId(s))
    ensures var items := Listing(oldMains + [MainRowAt(s, prefix, main, boardCode, note)],
                                 oldCrops + CropRowsAt(s, prefix, crops));
      && |items| == |oldMains| + 1
      && items[|oldMains|].mainImageId == MainId(s)
      && items[|oldMains|].defects == DefectsOf(CropRowsAt(s, prefix, crops))
      && |items[|oldMains|].defects| == |crops|
  {
    var rows := CropRowsAt(s, prefix, crops);
    CropRowsReferToMain(s, prefix, main, crops, boardCode, note);
    assert MainRowAt(s, prefix, main, boardCode, note).id == MainId(s);
    RowsOfAppend(MainId(s), oldCrops, rows);
    RowsOfNoneReferring(MainId(s), oldCrops);
    RowsOfAllReferring(MainId(s), rows);
    assert RowsOf(MainId(s), oldCrops + rows) == rows;
    var mains := oldMains + [MainRowAt(s, prefix, main, boardCode, note)];
    var items := Listing(mains, oldCrops + rows);
    assert mains[|oldMains|].id == MainId(s);
    assert items[|oldMains|] == ItemOf(mains[|oldMains|], RowsOf(MainId(s), oldCrops + rows));
  }

  lemma DefectsOfStep(group: seq<Stored<CropColumns>>, k: nat)
    requires k < |group|
    ensures DefectsOf(group[..k + 1]) == DefectsOf(group[..k]) + [DefectOf(group[k])]
  {
    var lhs := DefectsOf(group[..k + 1]);
    var rhs := DefectsOf(group[..k]) + [DefectOf(group[k])];
    forall t | 0 <= t < k + 1 ensures lhs[t] == rhs[t] {
    }
  }

  lemma ListingStep(mains: seq<Stored<MainColumns>>, crops: seq<Stored<CropColumns>>, i: nat)
    requires i < |mains|
    ensures Listing(mains[..i + 1], crops)
         == Listing(mains[..i], crops) + [ItemOf(mains[i], RowsOf(mains[i].id, crops))]
  {
    var lhs := Listing(mains[..i + 1], crops);
    var rhs := Listing(mains[..i], crops) + [ItemOf(mains[i], RowsOf(mains[i].id, crops))];
    forall t | 0 <= t < i + 1 ensures lhs[t] == rhs[t] {
    }
  }

  /** The first loop of `get_all_detections`: the crop rows grouped by their
      `main_image_id`, in table order; a main id with no crop row has no entry. */
  method GroupCropsByMain(cropRows: seq<Stored<CropColumns>>)
    returns (cropsByMain: map<string, seq<Stored<CropColumns>>>)
    ensures forall mid :: mid in cropsByMain ==> cropsByMain[mid] == RowsOf(mid, cropRows)
    ensures forall mid :: mid !in cropsByMain ==> RowsOf(mid, cropRows) == []
    ensures forall mid :: mid in cropsByMain ==> cropsByMain[mid] != []
  {
    cropsByMain := map[];
    for j := 0 to |cropRows|
      invariant forall mid :: mid in cropsByMain ==> cropsByMain[mid] == RowsOf(mid, cropRows[..j])
      invariant forall mid :: mid in cropsByMain ==> cropsByMain[mid] != []
      invariant forall mid :: mid !in cropsByMain ==> RowsOf(mid, cropRows[..j]) == []
    {
      var c := cropRows[j];
      forall mid: string ensures RowsOf(mid, cropRows[..j + 1])
          == RowsOf(mid, cropRows[..j]) + (if c.cols.mainImageId == Some(mid) then [c] else []) {
        RowsOfStep(mid, cropRows, j);
      }
      var mid := c.cols.mainImageId;
      if mid.None? {
        continue;
      }
      var group := if mid.value in cropsByMain then cropsByMain[mid.value] else [];
      cropsByMain := cropsByMain[mid.value := group + [c]];
    }
    assert cropRows[..|cropRows|] == cropRows;
  }

  /** The inner loop of `get_all_detections`: one listed defect per crop row. */
  method DefectsFor(group: seq<Stored<CropColumns>>) returns (defects: seq<Defect>)
    ensures defects == DefectsOf(group)
  {
    defects := [];
    for k := 0 to |group|
      invariant defects == DefectsOf(group[..k])
    {
      var c := group[k];
      defects := defects + [Defect(c.id, c.cols.prediction, c.cols.confidence,
                                   ListedBbox(c.cols.bboxX, c.cols.bboxY, c.cols.bboxWidth, c.cols.bboxHeight),
                                   c.createdAt)];
      DefectsOfStep(group, k);
    }
    assert group[..|group|] == group;
  }

  /** `get_all_detections`: groups the crop rows by `main_image_id`, skipping
      those without one, then builds one item per main row. */
  method GetAllDetections(store: Store) returns (items: seq<Item>)
    ensures items == Listing(store.mainRows, store.cropRows)
  {
    var mainRows := store.mainRows;
    var cropRows := store.cropRows;
    var cropsByMain := GroupCropsByMain(cropRows);

    items := [];
    for i := 0 to |mainRows|
      invariant items == Listing(mainRows[..i], cropRows)
    {
      var m := mainRows[i];
      var mid := m.id;
      var group := if mid in cropsByMain then cropsByMain[mid] else [];
      assert group == RowsOf(mid, cropRows);
      var defects := DefectsFor(group);
      var mainItem := Item(mid, m.cols.publicUrl, m.cols.storagePath, m.cols.originalFilename,
                           m.cols.boardCode, m.cols.note, m.createdAt, defects);
      items := items + [mainItem];
      ListingStep(mainRows, cropRows, i);
    }
    assert mainRows[..|mainRows|] == mainRows;
  }
}
