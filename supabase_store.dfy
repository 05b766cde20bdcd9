/** The Supabase side of both `pcb_db.py` files: a storage bucket and the two
    tables `pcb_main_images` and `pcb_defect_crops`, held in memory, with the
    helpers `upload_to_storage`, `insert_main_image` and `insert_defect_crop`
    (the two files define them with the same text) and the upload-and-insert
    sequence that both save functions run. */
module SupabaseStore {
  import opened Common
  import opened Geometry
  import opened Imaging

  /** An object in the bucket. */
  datatype Blob = Blob(path: string, bytes: Png, contentType: string)

  /** A table row: the id and creation time the database assigns, and the inserted columns. */
  datatype Stored<T> = Stored(id: string, createdAt: nat, cols: T)

  datatype MainColumns = MainColumns(
    storagePath: string, publicUrl: string, width: int, height: int,
    originalFilename: Option<string>, boardCode: Option<string>, note: Option<string>)

  /** A `pcb_defect_crops` row; a `None` column is one the insert did not set. */
  datatype CropColumns = CropColumns(
    mainImageId: Option<string>, cropStoragePath: string, cropPublicUrl: string,
    cropWidth: int, cropHeight: int, prediction: string, confidence: real,
    bboxX: Option<int>, bboxY: Option<int>, bboxWidth: Option<int>, bboxHeight: Option<int>)

  /** One write against the store, in the order it happened. */
  datatype Write =
    | Uploaded(path: string)
    | MainInserted(id: string)
    | CropInserted(id: string, mainImageId: Option<string>)

  const MainFolder: string := "pcb/main"
  const CropFolder: string := "pcb/crops"
  const DefaultExt: string := "png"
  const PngContentType: string := "image/" + DefaultExt

  /** `f"{folder}/{token}.{ext}"`. */
  function StoragePath(folder: string, token: string, ext: string): (path: string)
    ensures folder + "/" <= path && path[|folder| + 1..] == token + "." + ext
  {
    folder + "/" + token + "." + ext
  }

  /** The object's file name is the token and the extension, whatever the folder. */
  lemma StoragePathFileName(folder: string, token: string, ext: string)
    requires '/' !in token && '/' !in ext
    ensures Basename(StoragePath(folder, token, ext)) == token + "." + ext
  {
    var name := token + "." + ext;
    assert '/' !in name by {
      forall i | 0 <= i < |name| ensures name[i] != '/' {
        if i < |token| {
          assert name[i] == token[i];
        } else if i > |token| {
          assert name[i] == ext[i - |token| - 1];
        }
      }
    }
    assert StoragePath(folder, token, ext) == folder + "/" + name;
    BasenameAfterSlash(folder, name);
  }

  /** A generated token never holds a '/'. */
  lemma UuidHexNoSlash(n: nat)
    ensures '/' !in UuidHex(n)
  {
    UuidHexInAlphabet(n);
    forall i | 0 <= i < |UuidHex(n)| ensures UuidHex(n)[i] != '/' {
      assert UuidHex(n)[i] in HexAlphabet;
    }
  }

  /** `if bbox:` — present and not the empty dictionary. */
  predicate Truthy(bbox: Option<Bbox>)
  {
    bbox.Some? && bbox.value != map[]
  }

  /** `bbox.get(key)`. */
  function Lookup(b: Bbox, key: string): Option<int>
  {
    if key in b then Some(b[key]) else None
  }

  class Store {
    /** What `get_public_url` puts in front of a storage path (project URL and bucket). */
    const publicPrefix: string
    var blobs: seq<Blob>
    var mainRows: seq<Stored<MainColumns>>
    var cropRows: seq<Stored<CropColumns>>
    var journal: seq<Write>
    /** Drives the uuid4 generator, the row ids and the creation times. */
    var serial: nat

    constructor (publicPrefix: string)
      ensures this.publicPrefix == publicPrefix
      ensures blobs == [] && mainRows == [] && cropRows == [] && journal == [] && serial == 0
    {
      this.publicPrefix := publicPrefix;
      blobs, mainRows, cropRows, journal, serial := [], [], [], [], 0;
    }

    function PublicUrl(path: string): string
    {
      publicPrefix + path
    }

    /** `uuid.uuid4().hex`. */
    method NewUuidHex() returns (token: string)
      modifies this`serial
      ensures token == UuidHex(old(serial)) && serial == old(serial) + 1
    {
      token := UuidHex(serial);
      serial := serial + 1;
    }

    /** `storage.from_(bucket).upload(path, file, file_options)`. */
    method Upload(path: string, bytes: Png, contentType: string)
      modifies this`blobs, this`journal
      ensures blobs == old(blobs) + [Blob(path, bytes, contentType)]
      ensures journal == old(journal) + [Uploaded(path)]
    {
      blobs := blobs + [Blob(path, bytes, contentType)];
      journal := journal + [Uploaded(path)];
    }

    /** `table("pcb_main_images").insert(data).execute().data[0]`. */
    method InsertMain(cols: MainColumns) returns (row: Stored<MainColumns>)
      modifies this`mainRows, this`journal, this`serial
      ensures row == Stored(UuidHex(old(serial)), old(serial), cols)
      ensures mainRows == old(mainRows) + [row]
      ensures journal == old(journal) + [MainInserted(row.id)]
      ensures serial == old(serial) + 1
    {
      row := Stored(UuidHex(serial), serial, cols);
      mainRows := mainRows + [row];
      journal := journal + [MainInserted(row.id)];
      serial := serial + 1;
    }

    /** `table("pcb_defect_crops").insert(data).execute().data[0]`. */
    method InsertCrop(cols: CropColumns) returns (row: Stored<CropColumns>)
      modifies this`cropRows, this`journal, this`serial
      ensures row == Stored(UuidHex(old(serial)), old(serial), cols)
      ensures cropRows == old(cropRows) + [row]
      ensures journal == old(journal) + [CropInserted(row.id, cols.mainImageId)]
      ensures serial == old(serial) + 1
    {
      row := Stored(UuidHex(serial), serial, cols);
      cropRows := cropRows + [row];
      journal := journal + [CropInserted(row.id, cols.mainImageId)];
      serial := serial + 1;
    }
  }

  // ---------------------------------------------------------------------------
  // the helpers of pcb_db.py

  method UploadToStorage(store: Store, bytes: Png, folder: string, ext: string := DefaultExt)
    returns (storagePath: string, publicUrl: string)
    modifies store
    ensures storagePath == StoragePath(folder, UuidHex(old(store.serial)), ext)
    ensures publicUrl == store.PublicUrl(storagePath)
    ensures store.serial == old(store.serial) + 1
    ensures store.blobs == old(store.blobs) + [Blob(storagePath, bytes, "image/" + ext)]
    ensures store.journal == old(store.journal) + [Uploaded(storagePath)]
    ensures store.mainRows == old(store.mainRows) && store.cropRows == old(store.cropRows)
  {
    var token := store.NewUuidHex();
    storagePath := folder + "/" + (token + "." + ext);
    store.Upload(storagePath, bytes, "image/" + ext);
    publicUrl := store.PublicUrl(storagePath);
  }

  method InsertMainImage(
    store: Store, storagePath: string, publicUrl: string, width: int, height: int,
    originalFilename: Option<string> := None, boardCode: Option<string> := None, note: Option<string> := None)
    returns (id: string)
    modifies store
    ensures id == UuidHex(old(store.serial))
    ensures store.mainRows == old(store.mainRows) + [Stored(id, old(store.serial),
      MainColumns(storagePath, publicUrl, width, height, originalFilename, boardCode, note))]
    ensures store.journal == old(store.journal) + [MainInserted(id)]
    ensures store.serial == old(store.serial) + 1
    ensures store.blobs == old(store.blobs) && store.cropRows == old(store.cropRows)
  {
    var data := MainColumns(storagePath, publicUrl, width, height, originalFilename, boardCode, note);
    var row := store.InsertMain(data);
    id := row.id;
  }

  /** The row `insert_defect_crop` sends: the bbox columns are set from keys
      x, y, w, h only when the bbox is truthy. */
  function CropColumnsFor(
    mainImageId: string, cropStoragePath: string, cropPublicUrl: string,
    cropWidth: int, cropHeight: int, prediction: string, confidence: real, bbox: Option<Bbox>): (cols: CropColumns)
    ensures cols.mainImageId == Some(mainImageId)
    ensures cols.cropStoragePath == cropStoragePath && cols.cropPublicUrl == cropPublicUrl
    ensures cols.cropWidth == cropWidth && cols.cropHeight == cropHeight
    ensures cols.prediction == prediction && cols.confidence == confidence
    ensures !Truthy(bbox) ==> cols.bboxX.None? && cols.bboxY.None? && cols.bboxWidth.None? && cols.bboxHeight.None?
    ensures Truthy(bbox) ==>
      && cols.bboxX == Lookup(bbox.value, "x") && cols.bboxY == Lookup(bbox.value, "y")
      && cols.bboxWidth == Lookup(bbox.value, "w") && cols.bboxHeight == Lookup(bbox.value, "h")
  {
    var data := CropColumns(Some(mainImageId), cropStoragePath, cropPublicUrl, cropWidth, cropHeight,
                            prediction, confidence, None, None, None, None);
    if Truthy(bbox) then
      data.(bboxX := Lookup(bbox.value, "x"), bboxY := Lookup(bbox.value, "y"),
            bboxWidth := Lookup(bbox.value, "w"), bboxHeight := Lookup(bbox.value, "h"))
    else data
  }

  method InsertDefectCrop(
    store: Store, mainImageId: string, cropStoragePath: string, cropPublicUrl: string,
    cropWidth: int, cropHeight: int, prediction: string, confidence: real, bbox: Option<Bbox> := None)
    returns (row: Stored<CropColumns>)
    modifies store
    ensures row == Stored(UuidHex(old(store.serial)), old(store.serial),
      CropColumnsFor(mainImageId, cropStoragePath, cropPublicUrl, cropWidth, cropHeight, prediction, confidence, bbox))
    ensures store.cropRows == old(store.cropRows) + [row]
    ensures store.journal == old(store.journal) + [CropInserted(row.id, Some(mainImageId))]
    ensures store.serial == old(store.serial) + 1
    ensures store.blobs == old(store.blobs) && store.mainRows == old(store.mainRows)
  {
    var data := CropColumns(Some(mainImageId), cropStoragePath, cropPublicUrl, cropWidth, cropHeight,
                            prediction, confidence, None, None, None, None);
    if Truthy(bbox) {
      var b := bbox.value;
      data := data.(bboxX := Lookup(b, "x"));
      data := data.(bboxY := Lookup(b, "y"));
      data := data.(bboxWidth := Lookup(b, "w"));
      data := data.(bboxHeight := Lookup(b, "h"));
    }
    row := store.InsertCrop(data);
  }

  // ---------------------------------------------------------------------------
  // the upload-and-insert sequence of both save functions

  datatype MainUpload = MainUpload(bytes: Png, width: int, height: int, originalFilename: Option<string>)
  datatype CropUpload = CropUpload(
    bytes: Png, width: int, height: int, prediction: string, confidence: real, bbox: Option<Bbox>)

  datatype MainPayload = MainPayload(
    id: string, storagePath: string, publicUrl: string, width: int, height: int,
    originalFilename: Option<string>, boardCode: Option<string>, note: Option<string>)
  datatype CropPayload = CropPayload(
    id: string, cropStoragePath: string, cropPublicUrl: string, width: int, height: int,
    prediction: string, confidence: real, bbox: Option<Bbox>)
  datatype Saved = Saved(mainImage: MainPayload, crops: seq<CropPayload>)

  // Starting from serial s, the main image takes tokens s (upload) and s + 1
  // (row); crop k takes s + 2 + 2k (upload) and s + 3 + 2k (row).

  function MainPath(s: nat): string { StoragePath(MainFolder, UuidHex(s), DefaultExt) }
  function MainId(s: nat): string { UuidHex(s + 1) }
  function CropPath(s: nat, k: nat): string { StoragePath(CropFolder, UuidHex(s + 2 + 2 * k), DefaultExt) }
  function CropId(s: nat, k: nat): string { UuidHex(s + 3 + 2 * k) }

  /** The writes of one save of `n` crops: the main upload and insert, then an
      upload and an insert per crop. */
  function PersistWrites(s: nat, n: nat): seq<Write>
  {
    [Uploaded(MainPath(s)), MainInserted(MainId(s))] + CropWrites(s, n)
  }

  /** f(0), g(0), f(1), g(1), ..., f(n - 1), g(n - 1). */
  function Interleave<T>(f: nat -> T, g: nat -> T, n: nat): (w: seq<T>)
    ensures |w| == 2 * n
  {
    if n == 0 then [] else Interleave(f, g, n - 1) + [f(n - 1), g(n - 1)]
  }

  lemma {:induction false} InterleaveAt<T>(f: nat -> T, g: nat -> T, n: nat, k: nat)
    requires k < n
    ensures Interleave(f, g, n)[2 * k] == f(k) && Interleave(f, g, n)[2 * k + 1] == g(k)
  {
    if k < n - 1 {
      InterleaveAt(f, g, n - 1, k);
    }
  }

  /** The writes of the crop loop: an upload and an insert per crop. */
  function CropWrites(s: nat, n: nat): (w: seq<Write>)
  {
    Interleave(k => Uploaded(CropPath(s, k)), k => CropInserted(CropId(s, k), Some(MainId(s))), n)
  }

  lemma CropWritesStep(s: nat, n: nat)
    ensures CropWrites(s, n + 1) == CropWrites(s, n) + [Uploaded(CropPath(s, n)), CropInserted(CropId(s, n), Some(MainId(s)))]
  {
  }

  /** Crop `k` is uploaded at position 2k of the crop writes and inserted right after. */
  lemma CropWritesAt(s: nat, n: nat)
    ensures |CropWrites(s, n)| == 2 * n
    ensures forall k :: 0 <= k < n ==>
      CropWrites(s, n)[2 * k] == Uploaded(CropPath(s, k)) &&
      CropWrites(s, n)[2 * k + 1] == CropInserted(CropId(s, k), Some(MainId(s)))
  {
    forall k | 0 <= k < n
      ensures CropWrites(s, n)[2 * k] == Uploaded(CropPath(s, k))
      ensures CropWrites(s, n)[2 * k + 1] == CropInserted(CropId(s, k), Some(MainId(s)))
    {
      InterleaveAt(k => Uploaded(CropPath(s, k)), k => CropInserted(CropId(s, k), Some(MainId(s))), n, k);
    }
  }

  /** No crop write is a main insert, and every crop insert names the main id. */
  lemma {:induction false} CropWritesKinds(s: nat, n: nat)
    ensures forall i :: 0 <= i < |CropWrites(s, n)| ==>
      !CropWrites(s, n)[i].MainInserted? &&
      (CropWrites(s, n)[i].CropInserted? ==> CropWrites(s, n)[i].mainImageId == Some(MainId(s)))
  {
    if n > 0 {
      CropWritesKinds(s, n - 1);
      CropWritesStep(s, n - 1);
    }
  }

  /** In one save the main row is inserted once, before every crop row, and
      every crop row refers to it; there is one crop insert per crop. */
  lemma PersistWritesOrder(s: nat, n: nat)
    ensures var w := PersistWrites(s, n);
      && |w| == 2 + 2 * n
      && w[1] == MainInserted(MainId(s))
      && (forall i :: 0 <= i < |w| && w[i].MainInserted? ==> i == 1)
      && (forall i :: 0 <= i < |w| && w[i].CropInserted? ==> 1 < i && w[i].mainImageId == Some(MainId(s)))
      && (forall k :: 0 <= k < n ==> w[3 + 2 * k] == CropInserted(CropId(s, k), Some(MainId(s))))
  {
    var head := [Uploaded(MainPath(s)), MainInserted(MainId(s))];
    var cw := CropWrites(s, n);
    var w := PersistWrites(s, n);
    assert w == head + cw;
    CropWritesAt(s, n);
    CropWritesKinds(s, n);
    assert w[0] == Uploaded(MainPath(s)) && w[1] == MainInserted(MainId(s));
    forall i | 0 <= i < |w|
      ensures w[i].MainInserted? ==> i == 1
      ensures w[i].CropInserted? ==> 1 < i && w[i].mainImageId == Some(MainId(s))
    {
      if i >= 2 {
        assert w[i] == cw[i - 2];
      }
    }
    forall k | 0 <= k < n
      ensures w[3 + 2 * k] == CropInserted(CropId(s, k), Some(MainId(s)))
    {
      assert w[3 + 2 * k] == cw[2 * k + 1];
    }
  }

  function MainRowAt(s: nat, prefix: string, main: MainUpload, boardCode: Option<string>, note: Option<string>)
    : Stored<MainColumns>
  {
    Stored(MainId(s), s + 1, MainColumns(MainPath(s), prefix + MainPath(s), main.width, main.height,
                                         main.originalFilename, boardCode, note))
  }

  function CropRowAt(s: nat, prefix: string, c: CropUpload, k: nat): Stored<CropColumns>
  {
    Stored(CropId(s, k), s + 3 + 2 * k,
           CropColumnsFor(MainId(s), CropPath(s, k), prefix + CropPath(s, k), c.width, c.height,
                          c.prediction, c.confidence, c.bbox))
  }

  function CropPayloadAt(s: nat, prefix: string, c: CropUpload, k: nat): CropPayload
  {
    CropPayload(CropId(s, k), CropPath(s, k), prefix + CropPath(s, k), c.width, c.height,
                c.prediction, c.confidence, c.bbox)
  }

  function PersistBlobs(s: nat, main: MainUpload, crops: seq<CropUpload>): seq<Blob>
  {
    [Blob(MainPath(s), main.bytes, PngContentType)]
      + seq(|crops|, k requires 0 <= k < |crops| => Blob(CropPath(s, k), crops[k].bytes, PngContentType))
  }

  function CropRowsAt(s: nat, prefix: string, crops: seq<CropUpload>): seq<Stored<CropColumns>>
  {
    seq(|crops|, k requires 0 <= k < |crops| => CropRowAt(s, prefix, crops[k], k))
  }

  function SavedPayload(
    s: nat, prefix: string, main: MainUpload, crops: seq<CropUpload>,
    boardCode: Option<string>, note: Option<string>): Saved
  {
    Saved(MainPayload(MainId(s), MainPath(s), prefix + MainPath(s), main.width, main.height,
                      main.originalFilename, boardCode, note),
          CropPayloadsAt(s, prefix, crops))
  }

  function CropPayloadsAt(s: nat, prefix: string, crops: seq<CropUpload>): seq<CropPayload>
  {
    seq(|crops|, k requires 0 <= k < |crops| => CropPayloadAt(s, prefix, crops[k], k))
  }

  /** What a save returns: the main payload echoes what it was given, and there
      is one crop entry per crop, in order, copying its size, prediction,
      confidence and bbox, each stored under its own path. */
  lemma SavedPayloadFaithful(
    s: nat, prefix: string, main: MainUpload, crops: seq<CropUpload>,
    boardCode: Option<string>, note: Option<string>)
    ensures var saved := SavedPayload(s, prefix, main, crops, boardCode, note);
      && saved.mainImage.id == MainId(s)
      && saved.mainImage.width == main.width && saved.mainImage.height == main.height
      && saved.mainImage.originalFilename == main.originalFilename
      && saved.mainImage.boardCode == boardCode && saved.mainImage.note == note
      && |saved.crops| == |crops|
      && forall k :: 0 <= k < |crops| ==>
           && saved.crops[k].width == crops[k].width && saved.crops[k].height == crops[k].height
           && saved.crops[k].prediction == crops[k].prediction
           && saved.crops[k].confidence == crops[k].confidence
           && saved.crops[k].bbox == crops[k].bbox
           && saved.crops[k].cropPublicUrl == prefix + saved.crops[k].cropStoragePath
  {
  }

  /** Each crop is stored under a file name of its own token, in the crops folder. */
  lemma CropPathFileName(s: nat, k: nat)
    ensures Basename(CropPath(s, k)) == UuidHex(s + 2 + 2 * k) + "." + DefaultExt
  {
    assert '/' !in DefaultExt;
    UuidHexNoSlash(s + 2 + 2 * k);
    StoragePathFileName(CropFolder, UuidHex(s + 2 + 2 * k), DefaultExt);
  }

  /** Every crop row a save inserts refers to the main row it inserted just before. */
  lemma CropRowsReferToMain(s: nat, prefix: string, main: MainUpload, crops: seq<CropUpload>,
                            boardCode: Option<string>, note: Option<string>)
    ensures var rows := CropRowsAt(s, prefix, crops);
      && |rows| == |crops|
      && forall k :: 0 <= k < |rows| ==>
           rows[k].cols.mainImageId == Some(MainRowAt(s, prefix, main, boardCode, note).id)
           && rows[k].cols.mainImageId == Some(SavedPayload(s, prefix, main, crops, boardCode, note).mainImage.id)
           && MainRowAt(s, prefix, main, boardCode, note).createdAt < rows[k].createdAt
  {
  }

  /** What one more crop adds to each part of the planned state. */
  lemma PersistWritesStep(s: nat, i: nat)
    ensures PersistWrites(s, i + 1) == PersistWrites(s, i) + [Uploaded(CropPath(s, i)), CropInserted(CropId(s, i), Some(MainId(s)))]
  {
    var head := [Uploaded(MainPath(s)), MainInserted(MainId(s))];
    var tail := [Uploaded(CropPath(s, i)), CropInserted(CropId(s, i), Some(MainId(s)))];
    CropWritesStep(s, i);
    assert head + (CropWrites(s, i) + tail) == (head + CropWrites(s, i)) + tail;
  }

  lemma PersistBlobsStep(s: nat, main: MainUpload, crops: seq<CropUpload>, i: nat)
    requires i < |crops|
    ensures PersistBlobs(s, main, crops[..i + 1]) == PersistBlobs(s, main, crops[..i]) + [Blob(CropPath(s, i), crops[i].bytes, PngContentType)]
  {
    var a := PersistBlobs(s, main, crops[..i]);
    var b := PersistBlobs(s, main, crops[..i + 1]);
    var last := Blob(CropPath(s, i), crops[i].bytes, PngContentType);
    assert |b| == |a| + 1;
    forall j | 0 <= j < |b|
      ensures b[j] == (a + [last])[j]
    {
      if j == 0 {
        assert b[j] == a[j];
      } else if j - 1 < i {
        assert crops[..i + 1][j - 1] == crops[..i][j - 1];
        assert b[j] == a[j];
      } else {
        assert b[j] == last;
      }
    }
  }

  lemma CropRowsStep(s: nat, prefix: string, crops: seq<CropUpload>, i: nat)
    requires i < |crops|
    ensures CropRowsAt(s, prefix, crops[..i + 1]) == CropRowsAt(s, prefix, crops[..i]) + [CropRowAt(s, prefix, crops[i], i)]
  {
    var a := CropRowsAt(s, prefix, crops[..i]);
    var b := CropRowsAt(s, prefix, crops[..i + 1]);
    forall j | 0 <= j < |b|
      ensures b[j] == (a + [CropRowAt(s, prefix, crops[i], i)])[j]
    {
    }
  }

  lemma CropPayloadsStep(s: nat, prefix: string, crops: seq<CropUpload>, i: nat)
    requires i < |crops|
    ensures CropPayloadsAt(s, prefix, crops[..i + 1]) == CropPayloadsAt(s, prefix, crops[..i]) + [CropPayloadAt(s, prefix, crops[i], i)]
  {
    var a := CropPayloadsAt(s, prefix, crops[..i]);
    var b := CropPayloadsAt(s, prefix, crops[..i + 1]);
    forall j | 0 <= j < |b|
      ensures b[j] == (a + [CropPayloadAt(s, prefix, crops[i], i)])[j]
    {
    }
  }

  /** One pass of the crop loop extends each part of the planned save by crop `i`. */
  lemma PersistPassStep(s: nat, prefix: string, main: MainUpload, crops: seq<CropUpload>, i: nat,
                        journal0: seq<Write>, blobs0: seq<Blob>, cropRows0: seq<Stored<CropColumns>>)
    requires i < |crops|
    ensures (journal0 + PersistWrites(s, i)) + [Uploaded(CropPath(s, i)), CropInserted(CropId(s, i), Some(MainId(s)))]
         == journal0 + PersistWrites(s, i + 1)
    ensures (blobs0 + PersistBlobs(s, main, crops[..i])) + [Blob(CropPath(s, i), crops[i].bytes, PngContentType)]
         == blobs0 + PersistBlobs(s, main, crops[..i + 1])
    ensures (cropRows0 + CropRowsAt(s, prefix, crops[..i])) + [CropRowAt(s, prefix, crops[i], i)]
         == cropRows0 + CropRowsAt(s, prefix, crops[..i + 1])
    ensures CropPayloadsAt(s, prefix, crops[..i]) + [CropPayloadAt(s, prefix, crops[i], i)]
         == CropPayloadsAt(s, prefix, crops[..i + 1])
  {
    PersistWritesStep(s, i);
    AppendAssoc(journal0, PersistWrites(s, i), [Uploaded(CropPath(s, i)), CropInserted(CropId(s, i), Some(MainId(s)))]);
    PersistBlobsStep(s, main, crops, i);
    AppendAssoc(blobs0, PersistBlobs(s, main, crops[..i]), [Blob(CropPath(s, i), crops[i].bytes, PngContentType)]);
    CropRowsStep(s, prefix, crops, i);
    AppendAssoc(cropRows0, CropRowsAt(s, prefix, crops[..i]), [CropRowAt(s, prefix, crops[i], i)]);
    CropPayloadsStep(s, prefix, crops, i);
  }

  /** One pass of the crop loop: upload crop `k`, insert its row under the main
      id, and return its payload entry. */
  method PersistCrop(store: Store, ghost s: nat, mainImageId: string, crop: CropUpload, k: nat)
    returns (entry: CropPayload)
    requires store.serial == s + 2 + 2 * k && mainImageId == MainId(s)
    modifies store
    ensures store.serial == old(store.serial) + 2
    ensures store.journal == old(store.journal) + [Uploaded(CropPath(s, k)), CropInserted(CropId(s, k), Some(MainId(s)))]
    ensures store.blobs == old(store.blobs) + [Blob(CropPath(s, k), crop.bytes, PngContentType)]
    ensures store.mainRows == old(store.mainRows)
    ensures store.cropRows == old(store.cropRows) + [CropRowAt(s, store.publicPrefix, crop, k)]
    ensures entry == CropPayloadAt(s, store.publicPrefix, crop, k)
  {
    var cropStoragePath, cropPublicUrl := UploadToStorage(store, crop.bytes, CropFolder, DefaultExt);
    var defectRow := InsertDefectCrop(store, mainImageId, cropStoragePath, cropPublicUrl,
                                      crop.width, crop.height, crop.prediction, crop.confidence, crop.bbox);
    AppendTwo(old(store.journal), Uploaded(cropStoragePath), CropInserted(defectRow.id, Some(mainImageId)));
    entry := CropPayload(defectRow.id, cropStoragePath, cropPublicUrl,
                         crop.width, crop.height, crop.prediction, crop.confidence, crop.bbox);
  }

  /** The first part of a save: upload the main image and insert its row. */
  method PersistMain(store: Store, main: MainUpload, boardCode: Option<string>, note: Option<string>)
    returns (mainImageId: string, mainPayload: MainPayload)
    modifies store
    ensures mainImageId == MainId(old(store.serial))
    ensures mainPayload == SavedPayload(old(store.serial), store.publicPrefix, main, [], boardCode, note).mainImage
    ensures store.serial == old(store.serial) + 2
    ensures store.journal == old(store.journal) + PersistWrites(old(store.serial), 0)
    ensures store.blobs == old(store.blobs) + PersistBlobs(old(store.serial), main, [])
    ensures store.mainRows == old(store.mainRows) + [MainRowAt(old(store.serial), store.publicPrefix, main, boardCode, note)]
    ensures store.cropRows == old(store.cropRows)
  {
    ghost var s := store.serial;
    var mainStoragePath, mainPublicUrl := UploadToStorage(store, main.bytes, MainFolder, DefaultExt);
    mainImageId := InsertMainImage(store, mainStoragePath, mainPublicUrl, main.width, main.height,
                                   main.originalFilename, boardCode, note);
    mainPayload := MainPayload(mainImageId, mainStoragePath, mainPublicUrl, main.width, main.height,
                               main.originalFilename, boardCode, note);
    AppendTwo(old(store.journal), Uploaded(mainStoragePath), MainInserted(mainImageId));
    assert PersistWrites(s, 0) == [Uploaded(MainPath(s)), MainInserted(MainId(s))];
    assert PersistBlobs(s, main, []) == [Blob(MainPath(s), main.bytes, PngContentType)];
  }

  /** Uploads the main image, inserts its row, then uploads and inserts each
      crop with the main row's id; returns the payload of both. */
  method Persist(store: Store, main: MainUpload, crops: seq<CropUpload>, boardCode: Option<string>, note: Option<string>)
    returns (saved: Saved)
    modifies store
    ensures store.serial == old(store.serial) + 2 + 2 * |crops|
    ensures store.journal == old(store.journal) + PersistWrites(old(store.serial), |crops|)
    ensures store.blobs == old(store.blobs) + PersistBlobs(old(store.serial), main, crops)
    ensures store.mainRows == old(store.mainRows) + [MainRowAt(old(store.serial), store.publicPrefix, main, boardCode, note)]
    ensures store.cropRows == old(store.cropRows) + CropRowsAt(old(store.serial), store.publicPrefix, crops)
    ensures saved == SavedPayload(old(store.serial), store.publicPrefix, main, crops, boardCode, note)
  {
    ghost var s := store.serial;
    ghost var journal0, blobs0, cropRows0 := store.journal, store.blobs, store.cropRows;
    var mainImageId, mainPayload := PersistMain(store, main, boardCode, note);
    var cropsPayload: seq<CropPayload> := [];
    assert crops[..0] == [];
    assert PersistBlobs(s, main, crops[..0]) == PersistBlobs(s, main, []);
    assert CropRowsAt(s, store.publicPrefix, crops[..0]) == [];
    assert CropPayloadsAt(s, store.publicPrefix, crops[..0]) == [];
    for i := 0 to |crops|
      invariant store.serial == s + 2 + 2 * i
      invariant store.journal == journal0 + PersistWrites(s, i)
      invariant store.blobs == blobs0 + PersistBlobs(s, main, crops[..i])
      invariant store.mainRows == old(store.mainRows) + [MainRowAt(s, store.publicPrefix, main, boardCode, note)]
      invariant store.cropRows == cropRows0 + CropRowsAt(s, store.publicPrefix, crops[..i])
      invariant cropsPayload == CropPayloadsAt(s, store.publicPrefix, crops[..i])
    {
      PersistPassStep(s, store.publicPrefix, main, crops, i, journal0, blobs0, cropRows0);
      var entry := PersistCrop(store, s, mainImageId, crops[i], i);
      cropsPayload := cropsPayload + [entry];
    }
    assert crops[..|crops|] == crops;
    saved := Saved(mainPayload, cropsPayload);
  }
}
