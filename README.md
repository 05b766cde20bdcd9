# PCB defect pipeline — a Dafny model

This project models the data-handling core of a PCB inspection system. The system has two services.

The detection service (`pcb_model/app`):
- runs a Roboflow model on a board photograph;
- draws every prediction on a copy of the photograph;
- cuts one crop per prediction;
- uploads the annotated image and the crops to a Supabase storage bucket;
- inserts one row per image into the tables `pcb_main_images` and `pcb_defect_crops`;
- lists everything stored, with `get_all_detections`.

The agent service (`agent/app`) has several tools:
- The defect-analysis tool keeps only predictions with confidence at least 0.3. It cuts padded, 300 x 300 crops, saves them through the same Supabase helpers, and writes a markdown summary.
- The report tool estimates the money a defect rate costs.
- The testing-protocol tools search the web, fetch pages and record reflections.
- The supervisor API extracts the assistant's last reply from a conversation.

How the model is built:
- The Supabase project is a `Store` class. Its fields are the bucket's objects, the two tables, a journal of the writes in order, and a serial number. The serial drives `uuid4`, the ids the database assigns and `created_at`.
- The helpers and the two save functions are methods that change the store. Each is proved against functions that give the new state and the returned payload.
- The loops of the tools are methods, proved equal to recursive specification functions. Lemmas then prove what the source promises about those functions.
- Both `pcb_db.py` files define `upload_to_storage`, `insert_main_image` and `insert_defect_crop` with the same text. Both save functions also run the same upload-and-insert sequence. These are modelled once, in `SupabaseStore`.
- `save_via_supabase_from_agent` (the glue that turns PIL images into PNG bytes) is inlined as `DefectTools.SaverMain` and `DefectTools.SaverCrops`.

The following become parameters or inputs:
- the Roboflow inference result;
- the loaded picture and the set of existing files;
- the search engine's response, the HTTP fetch and `markdownify`;
- number formatting (`:.2f`, `:.1f`, `:.2%`, `:,.2f`), as functions from real to string.

Files:
- `common.dfy`: `Option`/`Result`, Python's `int()` on floats, `str()` on ints, `uuid4().hex`, `join`, `os.path.basename`/`join`.
- `geometry.dfy`: `_pred_to_xyxy`, the bbox dictionary, the 0.3 cut-off, the padded crop window.
- `imaging.dfy`: PIL pictures as a description of how they were made.
- `supabase_store.dfy`: the store, the three helpers, and the save sequence.
- `pcb_model.dfy`: `run_pcb_detection`.
- `pcb_model_db.dfy`: the detection service's save and `get_all_detections`.
- `agent_db.dfy`: `save_detection_from_agent_bytes_and_get_urls`.
- `defect_tools.dfy`: `detect_pcb_defects`.
- `cost.dfy`: `calculate_defect_cost_impact`.
- `protocol_tools.dfy`: `fetch_webpage_content`, `tavily_search`, `think_tool`.
- `messages.dfy`: `extract_last_assistant_text`.

The detailed list of `detect_pcb_defects` zips the *unfiltered* predictions with the saved crops, which hold only the kept predictions. As a result, a skipped low-confidence prediction can be listed next to the URL of a crop made for a different prediction. The model keeps this behaviour as written. `DefectTools.DetailsMisaligned` states it and `DefectTools.DetailEntriesPairing` states the general pairing.

## Model

| member | source | states |
|---|---|---|
| Common.Trunc | agent/app/defect_analysis_agent/tools.py:32-35 | `int()` on a float truncates toward zero: the result is within one of the argument, below it for non-negative arguments and above it for negative ones |
| Common.TruncOfInteger | agent/app/Report_analysis_agent/tools.py:24 | `int()` of a whole float is that integer |
| Common.TruncMonotonic | agent/app/Report_analysis_agent/tools.py:24 | `int()` never reverses the order of two floats |
| Common.NatToString | agent/app/defect_analysis_agent/tools.py:151 | `str()` of a natural number is a non-empty string of decimal digits |
| Common.NatToStringValue | agent/app/defect_analysis_agent/tools.py:151 | the digits of `str(n)` read back, most significant first, as exactly n |
| Common.NatToStringInjective | agent/app/defect_analysis_agent/tools.py:151 | different natural numbers are written as different strings |
| Common.IntToString | agent/app/Report_analysis_agent/tools.py:32 | `str()` of an integer: the digits of n when n >= 0, otherwise '-' followed by the digits of -n, each reading back as the number |
| Common.UuidHex | pcb_model/app/pcb_db.py:28 | a `uuid4().hex` token is exactly 32 characters long |
| Common.UuidHexInAlphabet | pcb_model/app/pcb_db.py:28 | every character of a token is a lower-case hexadecimal digit |
| Common.JoinAppend | agent/app/main.py:71 | joining two non-empty lists puts exactly one separator between the two joined halves |
| Common.Basename | pcb_model/app/pcb_model.py:87 | `os.path.basename` is a '/'-free suffix of the path, preceded by '/' unless it is the whole path |
| Common.BasenameAfterSlash | agent/app/defect_analysis_agent/tools.py:131 | the base name of `dir/name` is `name` whenever `name` holds no '/' |
| Common.PathJoin | agent/app/defect_analysis_agent/tools.py:112-113 | `os.path.join(dir, name)` ends with `name`, and starts with `dir` when `name` is relative and `dir` is not empty |
| Geometry.PredToXyxy | agent/app/defect_analysis_agent/tools.py:22-36 | each integer corner is less than one pixel away from the exact corner of the centre-format box |
| Geometry.PredToXyxyOrdered | pcb_model/app/pcb_model.py:20-34 | a box of non-negative size gives x1 <= x2 and y1 <= y2 |
| Geometry.CornersRoundTrip | pcb_model/app/pcb_model.py:20-34 | turning an integer box into centre form and back through `_pred_to_xyxy` gives its corners exactly |
| Geometry.BboxOf | pcb_model/app/pcb_model.py:119-124 | the stored box has exactly the keys x, y, w, h; x, y is the top-left corner and x + w, y + h the bottom-right one |
| Geometry.KeptMembership | agent/app/defect_analysis_agent/tools.py:86-89 | a prediction survives the cut-off exactly when it is in the input and has confidence at least 0.3 |
| Geometry.KeptAppend | agent/app/defect_analysis_agent/tools.py:86-89 | filtering distributes over concatenation, so order is kept |
| Geometry.Kept | agent/app/defect_analysis_agent/tools.py:86-89 | filtering never adds predictions, and every prediction it keeps has confidence at least 0.3 |
| Geometry.CropWindow | agent/app/defect_analysis_agent/tools.py:98-107 | the padded window is clamped inside the image |
| Geometry.CropWindowContainsBox | agent/app/defect_analysis_agent/tools.py:98-107 | for a box inside the image, the padded window contains the box |
| Geometry.CropWindowOrdered | agent/app/defect_analysis_agent/tools.py:104-109 | for a box inside the image, the window's corners are in order, so `crop` accepts it |
| Geometry.CropWindowPadding | agent/app/defect_analysis_agent/tools.py:98-107 | away from the image edges, the left and right sides move out by 20% of the box's width and the top and bottom by 20% of its height, each to within one pixel |
| SupabaseStore.StoragePath | pcb_model/app/pcb_db.py:28-29 | the object lies in `folder`, under the name `<token>.<ext>` |
| SupabaseStore.StoragePathFileName | pcb_model/app/pcb_db.py:28-29 | an object's file name is its token, a dot and the extension, whatever the folder |
| SupabaseStore.UuidHexNoSlash | pcb_model/app/pcb_db.py:28 | a generated token never holds a '/' |
| SupabaseStore.Store.constructor | pcb_model/app/pcb_db.py:14-18 | a fresh client sees an empty bucket, empty tables and no writes |
| SupabaseStore.Store.NewUuidHex | pcb_model/app/pcb_db.py:28 | each call hands out the next token and advances the generator |
| SupabaseStore.Store.Upload | pcb_model/app/pcb_db.py:32-36 | the object is appended to the bucket under its path with its content type, and the upload is journalled |
| SupabaseStore.Store.InsertMain | pcb_model/app/pcb_db.py:65-67 | the row is appended with a fresh id and creation time, and the insert is journalled |
| SupabaseStore.Store.InsertCrop | pcb_model/app/pcb_db.py:100-101 | the row is appended with a fresh id and creation time, and the insert is journalled with its main image id |
| SupabaseStore.UploadToStorage | pcb_model/app/pcb_db.py:23-39 | stores the bytes at `folder/<uuid hex>.ext` with type `image/ext`, returns that path and its public URL, and touches no table |
| SupabaseStore.InsertMainImage | pcb_model/app/pcb_db.py:44-67 | appends exactly one `pcb_main_images` row with the given columns and returns its new id; bucket and crop table unchanged |
| SupabaseStore.CropColumnsFor | pcb_model/app/pcb_db.py:84-98 | the row refers to the main image and copies the storage path, public URL, width, height, prediction and confidence; the bbox columns come from keys x, y, w, h when the bbox is truthy, and are left unset otherwise |
| SupabaseStore.InsertDefectCrop | pcb_model/app/pcb_db.py:70-101 | appends exactly one `pcb_defect_crops` row with those columns and returns it; bucket and main table unchanged |
| SupabaseStore.CropWritesAt | pcb_model/app/pcb_db.py:151-167 | crop k is uploaded, then its row is inserted under the main id, at positions 2k and 2k + 1 of the crop writes |
| SupabaseStore.CropWritesKinds | pcb_model/app/pcb_db.py:151-167 | the crop loop never inserts a main row, and every crop row it inserts names the main id |
| SupabaseStore.PersistWritesOrder | pcb_model/app/pcb_db.py:120-167 | a save inserts the main row once, before every crop row; every crop row refers to it; there is one crop insert per crop |
| SupabaseStore.SavedPayloadFaithful | pcb_model/app/pcb_db.py:138-185 | the returned payload echoes the main image's size, file name, board code and note, and has one entry per crop, in order, with its size, prediction, confidence, bbox and public URL |
| SupabaseStore.CropPathFileName | pcb_model/app/pcb_db.py:152-156 | each crop is stored under a file name made of its own token |
| SupabaseStore.CropRowsReferToMain | pcb_model/app/pcb_db.py:158-167 | every crop row refers to the main row inserted in the same save and was created after it |
| SupabaseStore.PersistCrop | pcb_model/app/pcb_db.py:151-180 | one pass of the crop loop adds one object, one crop row and one payload entry, exactly as the plan for crop k says |
| SupabaseStore.PersistMain | pcb_model/app/pcb_db.py:120-147 | uploading and inserting the main image adds the planned object and row and returns the planned payload |
| SupabaseStore.Persist | pcb_model/app/pcb_db.py:120-185 | the whole save leaves bucket, tables and journal as the old ones followed by exactly the planned writes, and returns the planned payload |
| PcbModel.CropOf | pcb_model/app/pcb_model.py:98-126 | a crop is the box cut from the original picture; it copies its prediction's class (or "unknown") and confidence (or 0.0), stores the box as top-left corner and size, and has the box's size |
| PcbModel.AnnotateKeepsSize | pcb_model/app/pcb_model.py:60-74 | drawing the boxes keeps the size of the picture |
| PcbModel.DrawErrorExactly | pcb_model/app/pcb_model.py:64-70 | drawing fails exactly when some prediction's box has its corners out of order, and then with one of Pillow's two `rectangle` errors |
| PcbModel.DrawSucceedsOnSizedBoxes | pcb_model/app/pcb_model.py:64-70 | boxes of non-negative width and height are always drawn |
| PcbModel.AnnotatePredictions | pcb_model/app/pcb_model.py:60-74 | the loop draws one box and caption per prediction, in order, or stops with the error of the first box Pillow refuses |
| PcbModel.CropsFollowDrawing | pcb_model/app/pcb_model.py:98-106 | once every box has been drawn, `crop` accepts every box, so the crop loop cannot fail |
| PcbModel.CutCrops | pcb_model/app/pcb_model.py:98-126 | the crop loop makes one crop per prediction, in order, each as `CropOf` states |
| PcbModel.Detection | pcb_model/app/pcb_model.py:37-128 | the detection succeeds exactly when every box has its corners in order; then the annotated image is the picture with every prediction drawn, its reported width and height are those of the result's "image" entry when present and the loaded picture's otherwise, it keeps the file's base name, and there is one crop per prediction |
| PcbModel.RunPcbDetection | pcb_model/app/pcb_model.py:37-128 | returns the specified detection, or Pillow's error for a box it cannot draw; no predictions gives no crops and the unannotated picture |
| PcbModelDb.SaveDetectionToSupabaseAndGetUrls | pcb_model/app/pcb_db.py:103-185 | runs the detection; when it raises, the error propagates and the store is unchanged; otherwise it stores and returns exactly the planned save of the annotated image and crops |
| PcbModelDb.SavedDetectionPayload | pcb_model/app/pcb_db.py:113-185 | for a detection that succeeds, the save returns one crop entry per prediction, in order, with its class (or "unknown"), confidence (or 0.0) and box, and keeps the file's base name |
| PcbModelDb.RowsOf | pcb_model/app/pcb_db.py:196-202 | a main id's group is drawn from the crop rows, holds only rows referring to it, and is no longer than the table |
| PcbModelDb.RowsOfMembership | pcb_model/app/pcb_db.py:196-202 | a crop row is grouped under a main id exactly when it refers to it |
| PcbModelDb.RowsOfAppend | pcb_model/app/pcb_db.py:196-202 | grouping keeps table order |
| PcbModelDb.RowsOfAllReferring | pcb_model/app/pcb_db.py:196-202 | rows that all refer to one main id form its whole group, unchanged |
| PcbModelDb.RowsOfNoneReferring | pcb_model/app/pcb_db.py:196-202 | rows that do not refer to a main id leave its group empty |
| PcbModelDb.Listing | pcb_model/app/pcb_db.py:187-240 | definition of the listing of the two tables; `ListingFaithful` states it |
| PcbModelDb.ListingFaithful | pcb_model/app/pcb_db.py:187-240 | one item per main row, in order, with its id, URL, path, original file name, board code, note and time. Every listed defect comes from a crop row referring to that main row, and every such row is listed |
| PcbModelDb.BboxRoundTrip | pcb_model/app/pcb_db.py:94-98 | a saved bbox lists back as its four values when truthy, and as four missing values otherwise |
| PcbModelDb.DetectorBboxRoundTrip | pcb_model/app/pcb_db.py:221-235 | a detector box lists back as exactly its corner, width and height |
| PcbModelDb.SavedThenListed | pcb_model/app/pcb_db.py:187-240 | after a save, the listing shows the new image last with exactly the saved crops as its defects, in order |
| PcbModelDb.GroupCropsByMain | pcb_model/app/pcb_db.py:196-202 | the grouping map has an entry exactly for the main ids some crop row refers to; each entry is non-empty and holds exactly the rows that refer to that id, in table order |
| PcbModelDb.DefectsFor | pcb_model/app/pcb_db.py:220-235 | one listed defect per grouped row, in order |
| PcbModelDb.GetAllDetections | pcb_model/app/pcb_db.py:187-240 | returns the listing of the current tables |
| AgentDb.SaveDetectionFromAgentBytesAndGetUrls | agent/app/defect_analysis_agent/pcb_db.py:103-197 | stores and returns exactly the planned save of the given main image and crops |
| AgentDb.BboxPassedThrough | agent/app/defect_analysis_agent/pcb_db.py:168-190 | a crop's optional bbox reaches the payload unchanged, and the row gets its four values only when it is truthy |
| DefectTools.BoxInsideImageCroppable | agent/app/defect_analysis_agent/tools.py:95-109 | a box that lies inside the image can always be drawn and cut out |
| DefectTools.CropPictureSize | agent/app/defect_analysis_agent/tools.py:109-110 | every crop is 300 x 300, whatever its window |
| DefectTools.ScanErrSticks | agent/app/defect_analysis_agent/tools.py:86-91 | once a missing key has interrupted the loop, later predictions change nothing |
| DefectTools.ScanOne | agent/app/defect_analysis_agent/tools.py:86-129 | definition of one loop pass: the confidence key, the 0.3 cut-off, the class key, Pillow's `rectangle` and `crop` checks, then the drawn box, the kept crop and its local path; `ScanOneOk` and `ScanOneKept` state its outcome |
| DefectTools.Scan | agent/app/defect_analysis_agent/tools.py:83-129 | definition of the whole loop, stopped by the first error; `ScanSucceeds`, `ScanKeepsAccepted` and `ScanAnnotatedSize` state its outcome |
| DefectTools.ScanOneOk | agent/app/defect_analysis_agent/tools.py:86-110 | one pass completes exactly when the prediction has a confidence and, if kept, a class and a box and window Pillow accepts; otherwise it fails with the missing key or Pillow's error |
| DefectTools.ScanOneKept | agent/app/defect_analysis_agent/tools.py:86-129 | a completed pass adds one crop and one local file for a kept prediction, and changes nothing otherwise |
| DefectTools.ScanSucceeds | agent/app/defect_analysis_agent/tools.py:86-110 | the loop completes exactly when every prediction has a confidence and every kept one has a class and a box and padded window whose corners are in order; otherwise it fails with a missing key or one of Pillow's `rectangle` and `crop` errors |
| DefectTools.ScanKeepsAccepted | agent/app/defect_analysis_agent/tools.py:86-129 | one crop and one local file per kept prediction, in order, carrying its class, confidence, box and padded, resized window |
| DefectTools.ScanAnnotatedSize | agent/app/defect_analysis_agent/tools.py:75-96 | the annotated image keeps the original's size |
| DefectTools.ScanPredictions | agent/app/defect_analysis_agent/tools.py:83-129 | the loop returns the specified scan result, including the interruption |
| DefectTools.DetailEntryOk | agent/app/defect_analysis_agent/tools.py:161-163 | an entry fails exactly when its prediction lacks a confidence or a class |
| DefectTools.DetailEntriesOk | agent/app/defect_analysis_agent/tools.py:160-167 | the detailed list fails exactly when one of the zipped predictions lacks a confidence or a class |
| DefectTools.DetailEntriesPairing | agent/app/defect_analysis_agent/tools.py:160-167 | entry k describes the k-th prediction of the unfiltered list with the k-th saved crop's URL |
| DefectTools.DetailedListStep | agent/app/defect_analysis_agent/tools.py:160-167 | one pass of the list loop either fails with the entry's missing key, which then ends the list, or appends that entry's text |
| DefectTools.DetailedList | agent/app/defect_analysis_agent/tools.py:159-167 | the loop over `zip(predictions, crops_supabase)` gives the specified text or the missing key |
| DefectTools.LocalEvidence | agent/app/defect_analysis_agent/tools.py:169-173 | the debug section lists the annotated path and one numbered line per local crop |
| DefectTools.Summary | agent/app/defect_analysis_agent/tools.py:149-175 | definition of the summary text: opening, detailed list, debug section; `SummaryStartsWithHeader` and `SummaryCountsKept` state its properties |
| DefectTools.BuildSummary | agent/app/defect_analysis_agent/tools.py:149-175 | the summary built with `+=` is the specified header, main block, detailed list and debug section |
| DefectTools.SaverMain | agent/app/defect_analysis_agent/supabase_saver.py:27-38 | definition of the main image handed to the save: PNG of the annotated image, its size and the file's base name; `SavedCropsAreKept` states what is stored |
| DefectTools.SaverCrops | agent/app/defect_analysis_agent/supabase_saver.py:40-58 | definition of the crops handed to the save: each as PNG with its size, class, confidence and bbox; `SavedCropsAreKept` states what is stored |
| DefectTools.DetectReply | agent/app/defect_analysis_agent/tools.py:40-179 | definition of the tool's reply in each case; `EarlyReplies`, `ReplyAfterSave` and `BoxBeyondEdgeRejected` state them |
| DefectTools.EarlyReplies | agent/app/defect_analysis_agent/tools.py:51-179 | a missing file, a failed inference, a missing or empty prediction list each give their fixed reply; an interrupted loop replies with its error and does not reach the save |
| DefectTools.BoxBeyondEdgeRejected | agent/app/defect_analysis_agent/tools.py:104-179 | a box centred at x = 100 on a 10 x 10 image gives the window from x = 97 to x = 10; the reply is Pillow's "Coordinate 'right' is less than 'left'" error and nothing is saved |
| DefectTools.SavedCropsAreKept | agent/app/defect_analysis_agent/tools.py:135-143 | the save stores the annotated image under the file's base name with the agent's note, plus one 300 x 300 crop per kept prediction, in order, with its class, confidence and box |
| DefectTools.DetailsFailOnlyOnClass | agent/app/defect_analysis_agent/tools.py:160-163 | when every prediction has a confidence, only a missing class can interrupt the list |
| DefectTools.SummaryStartsWithHeader | agent/app/defect_analysis_agent/tools.py:150-151 | a summary opens with the analysed path and the number of kept crops |
| DefectTools.ReplyAfterSave | agent/app/defect_analysis_agent/tools.py:149-179 | after the save, the reply is the summary, or the error text of the key that interrupted it |
| DefectTools.SummaryCountsKept | agent/app/defect_analysis_agent/tools.py:150-167 | "Total Defects Found" counts the predictions with confidence at least 0.3; the list has that many entries and can fail only on a missing class |
| DefectTools.ScanSkipsThenKeeps | agent/app/defect_analysis_agent/tools.py:86-89 | a low-confidence prediction followed by a kept one yields a single crop, for the kept one |
| DefectTools.DetailsMisaligned | agent/app/defect_analysis_agent/tools.py:160-167 | in that case the only list entry describes the skipped prediction but shows the URL of the kept one's crop |
| DefectTools.OneCropDetails | agent/app/defect_analysis_agent/tools.py:160-167 | two predictions and one saved crop give one entry: the first prediction with that crop |
| DefectTools.DetectPcbDefects | agent/app/defect_analysis_agent/tools.py:40-179 | the reply is the specified one. The store is untouched unless the call reaches the save, and then holds exactly the planned save of the annotated image and kept crops |
| CostImpact.CostEstimate | agent/app/Report_analysis_agent/tools.py:24-30 | the action follows `is_scrap`; for a non-negative product of batch size and rate, the affected units are that product rounded down |
| CostImpact.CalculateDefectCostImpact | agent/app/Report_analysis_agent/tools.py:8-32 | the text names the action chosen by `is_scrap`, then the affected units and the loss rendered as money |
| CostImpact.AffectedUnitsWithinBatch | agent/app/Report_analysis_agent/tools.py:18-24 | for a rate in [0, 1], the affected units lie between 0 and the batch size |
| CostImpact.AffectedWithinBatch | agent/app/Report_analysis_agent/tools.py:18-30 | with a non-negative cost, the loss lies between 0 and the cost of the whole batch |
| CostImpact.NegativeRateTruncatesTowardZero | agent/app/Report_analysis_agent/tools.py:24 | a negative rate truncates toward zero: -0.15 on 10 units gives -1, not -2 |
| CostImpact.AffectedMonotoneInRate | agent/app/Report_analysis_agent/tools.py:24 | a larger rate never lowers the affected units |
| CostImpact.LossMonotoneInRate | agent/app/Report_analysis_agent/tools.py:24-30 | a larger rate never lowers the loss, for a non-negative cost |
| CostImpact.Defaults | agent/app/Report_analysis_agent/tools.py:12-30 | by default the tool scraps; rework with no rework cost reports no loss |
| CostImpact.WorkedExample | agent/app/Report_analysis_agent/tools.py:24-30 | 1000 boards at 5% and 20 each lose 1000 when scrapped, and 250 when reworked at 5 each |
| ProtocolTools.FetchWebpageContent | agent/app/testing_protocol_agent/tools.py:22-42 | a page that fetched is returned as its markdown; a failure becomes "Error fetching content from <url>: <reason>" |
| ProtocolTools.UsableHits | agent/app/testing_protocol_agent/tools.py:78-82 | only results with a non-empty URL are used |
| ProtocolTools.UsableHitsMembership | agent/app/testing_protocol_agent/tools.py:78-82 | a result is used exactly when it is among the results and has a URL |
| ProtocolTools.Blocks | agent/app/testing_protocol_agent/tools.py:75-93 | definition of `result_texts` after the loop; `BlocksOfUsableHits` states it |
| ProtocolTools.BlocksOfUsableHits | agent/app/testing_protocol_agent/tools.py:75-93 | one block per usable result, in order, with its title (or "No Title"), URL and fetched content, fetch failures included |
| ProtocolTools.SearchReplyCases | agent/app/testing_protocol_agent/tools.py:65-104 | an engine failure is reported; no usable result gives the "No results" text; otherwise the header counts the usable results and their blocks follow. The reply is never empty |
| ProtocolTools.SearchReply | agent/app/testing_protocol_agent/tools.py:65-104 | definition of the search reply; `SearchReplyCases` states its cases |
| ProtocolTools.TavilySearch | agent/app/testing_protocol_agent/tools.py:46-104 | the loop returns the specified search reply |
| ProtocolTools.ThinkTool | agent/app/testing_protocol_agent/tools.py:108-127 | the reply is the fixed acknowledgement followed by the reflection itself |
| ProtocolTools.ThinkToolInjective | agent/app/testing_protocol_agent/tools.py:127 | different reflections get different replies |
| AssistantReply.LastReplyIndex | agent/app/main.py:39-52 | finds the last turn whose role is "assistant" or "ai"; none is found exactly when no turn has such a role |
| AssistantReply.Reply | agent/app/main.py:37-55 | a conversation with no assistant turn gives the empty string |
| AssistantReply.ReplyAfterTurn | agent/app/main.py:39-52 | adding a reply turn makes it the answer; adding any other turn leaves the answer unchanged |
| AssistantReply.ReplyIgnoresLaterTurns | agent/app/main.py:39-52 | human, system or tool turns after the conversation do not change the answer |
| AssistantReply.ReplyIsLastReply | agent/app/main.py:39-73 | the answer is the flattened content of a reply turn that no later reply follows |
| AssistantReply.Flatten | agent/app/main.py:57-73 | definition of content to text: a string as is, a list joined by newlines, anything else by its `str()`; `FlattenListAppend` states the list case |
| AssistantReply.FlattenListAppend | agent/app/main.py:63-71 | list content puts exactly one newline between the texts of its parts |
| AssistantReply.ExtractLastAssistantText | agent/app/main.py:31-73 | the backwards scan and the flattening return the specified answer |

## Left out

- Exceptions from Supabase are not modelled: a failed upload or insert, or an empty `res.data`. Each helper always succeeds. In `detect_pcb_defects` the error reply is modelled for a failed inference, a missing "confidence" or "class" key, and Pillow's refusal of a box or crop window whose corners are out of order.
- Pillow's checks are modelled as Pillow 10 and later performs them: `ImageDraw.rectangle` refuses a box whose right edge is left of its left edge or whose bottom is above its top, and `Image.crop` refuses such a window. No Pillow version is pinned; an older Pillow that draws such a box without complaint would fail later, at the crop, or not at all, and that behaviour is not modelled.
- Resizing a zero-width or zero-height crop to 300 x 300 is modelled as succeeding; Pillow's behaviour on an empty image is not modelled.
- A missing "x", "y", "width" or "height" key in a prediction is not modelled: `Prediction` always carries the four numbers.
- Pixels, the label font and drawing colours are not modelled. A picture is a description of how it was made, and PNG bytes wrap that description.
- Floating point is modelled as exact reals. Float rounding is not modelled.
- Number formatting (`:.2f`, `:.1f`, `:.2%`, `:,.2f`) is passed in as functions, because Dafny has no float formatting.
- `uuid4` randomness is replaced by a serial counter. Ids and `created_at` come from the same counter, so the model assumes no two uploads collide.
- The bucket name, the environment variables and `get_public_url` are reduced to a fixed public URL prefix.
- The local debug files of `detect_pcb_defects` are not modelled. The output folder is a parameter, and the saved JPEG files, `os.makedirs` and `print` are left out; only the paths that enter the summary are modelled.
- `run_pcb_detection`'s `model_path` is unused by the source and is left out, as are its `print` calls.
- The `int()`, `str()` and `float()` coercions in the agent's save are not modelled: the model's values already have the target types.
- A non-string "text" value in structured message content is not modelled: each part is a text or an opaque `str()` rendering.
- Dictionary messages and LangChain message objects are modelled as one message type.
- The `if main_image:` test of `detect_pcb_defects` is not modelled. The summary always includes the main block, since the save always returns a non-empty main payload.
- The HTTP timeout of `fetch_webpage_content`, the User-Agent header and `raise_for_status` are not modelled. The fetch is a function of URL and timeout that succeeds or fails with a reason.
- The Tavily client is a function of query, maximum results and topic.
- `check_material_market_price`, agent wiring, prompts, the FastAPI endpoints and the command-line entry point are outside this model.
- CostImpact.CalculateDefectCostImpact: the loss is formatted by a parameter, so the contract fixes the text up to the money rendering.
