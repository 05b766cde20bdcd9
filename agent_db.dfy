/** The defect-analysis agent's `pcb_db.py`: the save of an annotated image and
    crops the agent has already made. Its helpers `upload_to_storage`,
    `insert_main_image` and `insert_defect_crop` have the same text as the
    detection service's and are the ones in SupabaseStore. */
module AgentDb {
  import opened Common
  import opened SupabaseStore

  /** Uploads the main image, inserts its row, then uploads and inserts each
      crop with the main row's id, passing each crop's optional bbox through. */
  method SaveDetectionFromAgentBytesAndGetUrls(
    store: Store, mainImage: MainUpload, crops: seq<CropUpload>,
    boardCode: Option<string> := None, note: Option<string> := None)
    returns (saved: Saved)
    modifies store
    ensures store.serial == old(store.serial) + 2 + 2 * |crops|
    ensures store.journal == old(store.journal) + PersistWrites(old(store.serial), |crops|)
    ensures store.blobs == old(store.blobs) + PersistBlobs(old(store.serial), mainImage, crops)
    ensures store.mainRows == old(store.mainRows) + [MainRowAt(old(store.serial), store.publicPrefix, mainImage, boardCode, note)]
    ensures store.cropRows == old(store.cropRows) + CropRowsAt(old(store.serial), store.publicPrefix, crops)
    ensures saved == SavedPayload(old(store.serial), store.publicPrefix, mainImage, crops, boardCode, note)
  {
    saved := Persist(store, mainImage, crops, boardCode, note);
  }

  /** A crop's bbox reaches the payload unchanged, `None` included; the row of a
      crop without a (truthy) bbox has no bbox columns, and the row of a crop
      with one has the four values under x, y, w and h. */
  lemma BboxPassedThrough(
    s: nat, prefix: string, mainImage: MainUpload, crops: seq<CropUpload>,
    boardCode: Option<string>, note: Option<string>, k: nat)
    requires k < |crops|
    ensures SavedPayload(s, prefix, mainImage, crops, boardCode, note).crops[k].bbox == crops[k].bbox
    ensures var row := CropRowsAt(s, prefix, crops)[k].cols;
      && (!Truthy(crops[k].bbox) ==> row.bboxX == None && row.bboxY == None && row.bboxWidth == None && row.bboxHeight == None)
      && (Truthy(crops[k].bbox) ==>
            && row.bboxX == Lookup(crops[k].bbox.value, "x") && row.bboxY == Lookup(crops[k].bbox.value, "y")
            && row.bboxWidth == Lookup(crops[k].bbox.value, "w") && row.bboxHeight == Lookup(crops[k].bbox.value, "h"))
  {
  }
}
