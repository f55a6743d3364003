/** `ImageController`: upload registration, the batch face-detection loop,
    the listing arithmetic of `getUserImages`, and the two deletes. The batch
    loops are specified by left folds over the prefix already processed. */
module ImageController {
  import opened Wrappers
  import opened Faces
  import opened ImageSchema
  import opened Storage
  import opened Strings

  // ---------------------------------------------------------------------
  // uploadImages

  /** One entry of `req.files` as multer fills it in. */
  datatype UploadedFile = UploadedFile(filename: string, originalname: string, path: string, size: int, mimetype: string)

  /** Per file: the `_id` the new document gets, and whether `save()` throws for
      a reason other than validation (a duplicate key is detected from the store). */
  datatype SaveEnv = SaveEnv(newId: Id, saveThrows: bool)

  /** The loop's state: the saved documents in order, the collection, the files
      on disk, and whether an exception escaped the inner `catch` (an unlink
      that throws) and ended the request. */
  datatype UploadState = UploadState(saved: seq<ImageRecord>, records: map<Id, ImageRecord>, files: set<string>, crashed: bool)

  function FieldsOf(userId: Id, f: UploadedFile, now: int): ImageFields {
    ImageFields(Some(userId), Some(f.filename), Some(f.originalname), Some(f.path), Some(f.size), Some(f.mimetype), Some(now))
  }

  /** The document `new Image({...})` builds for a file: the file's fields,
      the uploader, `uploadedAt` now, unprocessed. */
  function Document(userId: Id, f: UploadedFile, env: SaveEnv, now: int): ImageRecord {
    ImageRecord(env.newId, userId, f.filename, f.originalname, f.path, f.size, f.mimetype, now, false, None, NoResults)
  }

  lemma BuildsDocument(userId: Id, f: UploadedFile, env: SaveEnv, now: int)
    ensures NewImage(env.newId, FieldsOf(userId, f, now), now)
      == if MissingPaths(FieldsOf(userId, f, now)) == [] then Ok(Document(userId, f, env, now))
         else Err(MissingPaths(FieldsOf(userId, f, now)))
  {
  }

  /** The document for one file, when validation and `save()` both succeed. */
  function Saved(records: map<Id, ImageRecord>, userId: Id, f: UploadedFile, env: SaveEnv, now: int): Option<ImageRecord> {
    if MissingPaths(FieldsOf(userId, f, now)) == [] && !env.saveThrows && env.newId !in records
    then Some(Document(userId, f, env, now)) else None
  }

  /** One iteration: save, or on failure remove the file from disk if it exists. */
  function UploadStep(st: UploadState, locked: set<string>, userId: Id, f: UploadedFile, env: SaveEnv, now: int): UploadState {
    if st.crashed then st
    else match Saved(st.records, userId, f, env, now)
      case Some(r) => st.(saved := st.saved + [r], records := st.records[r.id := r])
      case None =>
        if f.path !in st.files then st
        else if f.path in locked then st.(crashed := true)
        else st.(files := st.files - {f.path})
  }

  function UploadFold(st: UploadState, locked: set<string>, userId: Id, fs: seq<UploadedFile>, envs: seq<SaveEnv>, now: int): UploadState
    requires |fs| == |envs|
    decreases |fs|
  {
    if fs == [] then st
    else UploadStep(UploadFold(st, locked, userId, fs[..|fs| - 1], envs[..|envs| - 1], now),
                    locked, userId, fs[|fs| - 1], envs[|envs| - 1], now)
  }

  datatype UploadResponse =
    | UploadRejected(status: int, message: string)
    | UploadCreated(images: seq<ImageRecord>)

  const NoImagesUploaded := UploadRejected(400, "No images uploaded")
  const NoneProcessed := UploadRejected(500, "Failed to process uploaded images")
  const InternalError := UploadRejected(500, "Internal server error")

  /** `uploadImages`. `files` is `req.files` (None when multer left it unset). */
  method UploadImages(db: Store, userId: Id, files: Option<seq<UploadedFile>>, envs: seq<SaveEnv>, now: int)
    returns (resp: UploadResponse)
    requires db.Valid()
    requires files.Some? ==> |envs| == |files.value|
    modifies db
    ensures db.Valid() && db.dirs == old(db.dirs)
    ensures files.None? || files.value == [] ==>
      resp == NoImagesUploaded && db.records == old(db.records) && db.files == old(db.files)
    ensures files.Some? && files.value != [] ==>
      var st := UploadFold(UploadState([], old(db.records), old(db.files), false), db.locked, userId, files.value, envs, now);
      db.records == st.records && db.files == st.files
      && resp == (if st.crashed then InternalError else if st.saved == [] then NoneProcessed else UploadCreated(st.saved))
  {
    if files.None? || files.value == [] {
      return NoImagesUploaded;
    }
    var fs := files.value;
    ghost var start := UploadState([], db.records, db.files, false);
    var uploaded: seq<ImageRecord> := [];
    var i := 0;
    while i < |fs|
      invariant 0 <= i <= |fs|
      invariant UploadFold(start, db.locked, userId, fs[..i], envs[..i], now)
        == UploadState(uploaded, db.records, db.files, false)
      invariant db.Valid() && db.dirs == old(db.dirs)
    {
      assert fs[..i + 1][..i] == fs[..i] && envs[..i + 1][..i] == envs[..i];
      var f, env := fs[i], envs[i];
      var built := NewImage(env.newId, FieldsOf(userId, f, now), now);
      BuildsDocument(userId, f, env, now);
      if built.Ok? && !env.saveThrows && env.newId !in db.records {
        db.records := db.records[env.newId := built.value];
        uploaded := uploaded + [built.value];
      } else if f.path in db.files {
        if f.path in db.locked {
          assert UploadFold(start, db.locked, userId, fs[..i + 1], envs[..i + 1], now).crashed;
          UploadFoldStaysCrashed(start, db.locked, userId, fs, envs, now, i + 1);
          assert fs[..|fs|] == fs && envs[..|envs|] == envs;
          return InternalError;
        }
        db.files := db.files - {f.path};
      }
      i := i + 1;
    }
    assert fs[..|fs|] == fs && envs[..|envs|] == envs;
    if uploaded == [] {
      return NoneProcessed;
    }
    return UploadCreated(uploaded);
  }

  /** Once an exception ends the loop, later files change nothing. */
  lemma {:induction false} UploadFoldStaysCrashed(st: UploadState, locked: set<string>, userId: Id,
                                                 fs: seq<UploadedFile>, envs: seq<SaveEnv>, now: int, k: nat)
    requires |fs| == |envs| && k <= |fs|
    requires UploadFold(st, locked, userId, fs[..k], envs[..k], now).crashed
    ensures UploadFold(st, locked, userId, fs, envs, now) == UploadFold(st, locked, userId, fs[..k], envs[..k], now)
    decreases |fs| - k
  {
    if k < |fs| {
      assert fs[..|fs| - 1][..k] == fs[..k] && envs[..|envs| - 1][..k] == envs[..k];
      UploadFoldStaysCrashed(st, locked, userId, fs[..|fs| - 1], envs[..|envs| - 1], now, k);
    } else {
      assert fs[..k] == fs && envs[..k] == envs;
    }
  }

  /** What saving document `j` established. */
  predicate SavedEntry(records: map<Id, ImageRecord>, st: UploadState, j: int, userId: Id, now: int)
    requires 0 <= j < |st.saved|
  {
    var r := st.saved[j];
    r.id !in records && r.id in st.records && st.records[r.id] == r
    && r.userId == userId && !r.processed && r.uploadedAt == now
  }

  /** What the upload loop keeps true of its state, relative to the collection
      before the request. */
  predicate UploadInv(records: map<Id, ImageRecord>, st: UploadState, userId: Id, now: int) {
    (forall k :: k in records ==> k in st.records && st.records[k] == records[k])
    && (forall j :: 0 <= j < |st.saved| ==> SavedEntry(records, st, j, userId, now))
    && (forall k :: k in st.records && k !in records ==> exists j :: 0 <= j < |st.saved| && st.saved[j].id == k)
  }

  lemma UploadStepInv(records: map<Id, ImageRecord>, st: UploadState, locked: set<string>, userId: Id,
                      f: UploadedFile, env: SaveEnv, now: int)
    requires UploadInv(records, st, userId, now)
    ensures UploadInv(records, UploadStep(st, locked, userId, f, env, now), userId, now)
    ensures |UploadStep(st, locked, userId, f, env, now).saved| <= |st.saved| + 1
  {
    var next := UploadStep(st, locked, userId, f, env, now);
    if !st.crashed && Saved(st.records, userId, f, env, now).Some? {
      var r := Saved(st.records, userId, f, env, now).value;
      assert r.id == env.newId && r.id !in st.records;
      assert next.saved == st.saved + [r] && next.records == st.records[r.id := r];
      forall j | 0 <= j < |next.saved| ensures SavedEntry(records, next, j, userId, now) {
        if j < |st.saved| {
          assert SavedEntry(records, st, j, userId, now);
          assert next.saved[j] == st.saved[j];
        }
      }
      forall k | k in next.records && k !in records
        ensures exists j :: 0 <= j < |next.saved| && next.saved[j].id == k
      {
        if k == r.id {
          assert next.saved[|st.saved|].id == k;
        } else {
          var j :| 0 <= j < |st.saved| && st.saved[j].id == k;
          assert next.saved[j].id == k;
        }
      }
    } else {
      assert next.saved == st.saved && next.records == st.records;
      forall j | 0 <= j < |next.saved| ensures SavedEntry(records, next, j, userId, now) {
        assert SavedEntry(records, st, j, userId, now);
      }
    }
  }

  /** Uploading never touches an existing document, every saved document is
      new, unprocessed and owned by the uploader, and the collection grows by
      exactly the saved documents. */
  lemma {:induction false} UploadAddsOnlySaved(records: map<Id, ImageRecord>, disk: set<string>, locked: set<string>,
                                              userId: Id, fs: seq<UploadedFile>, envs: seq<SaveEnv>, now: int)
    requires |fs| == |envs|
    ensures var st := UploadFold(UploadState([], records, disk, false), locked, userId, fs, envs, now);
      UploadInv(records, st, userId, now) && |st.saved| <= |fs|
    decreases |fs|
  {
    if fs != [] {
      UploadAddsOnlySaved(records, disk, locked, userId, fs[..|fs| - 1], envs[..|envs| - 1], now);
      var prev := UploadFold(UploadState([], records, disk, false), locked, userId, fs[..|fs| - 1], envs[..|envs| - 1], now);
      UploadStepInv(records, prev, locked, userId, fs[|fs| - 1], envs[|envs| - 1], now);
    }
  }

  /** Only files of failed saves leave the disk, and only when they exist. */
  lemma {:induction false} UploadRemovesOnlyFailed(records: map<Id, ImageRecord>, disk: set<string>, locked: set<string>,
                                                  userId: Id, fs: seq<UploadedFile>, envs: seq<SaveEnv>, now: int)
    requires |fs| == |envs|
    ensures var st := UploadFold(UploadState([], records, disk, false), locked, userId, fs, envs, now);
      st.files <= disk
      && forall p :: p in disk - st.files ==> p !in locked && exists i :: 0 <= i < |fs| && fs[i].path == p
    decreases |fs|
  {
    if fs != [] {
      UploadRemovesOnlyFailed(records, disk, locked, userId, fs[..|fs| - 1], envs[..|envs| - 1], now);
      var prev := UploadFold(UploadState([], records, disk, false), locked, userId, fs[..|fs| - 1], envs[..|envs| - 1], now);
      var st := UploadStep(prev, locked, userId, fs[|fs| - 1], envs[|envs| - 1], now);
      forall p | p in disk - st.files
        ensures p !in locked && exists i :: 0 <= i < |fs| && fs[i].path == p
      {
        if p in disk - prev.files {
          var i :| 0 <= i < |fs| - 1 && fs[..|fs| - 1][i].path == p;
          assert fs[i].path == p;
        } else {
          assert fs[|fs| - 1].path == p;
        }
      }
    }
  }

  /** The conditions under which a file's document is saved: it validates,
      `save()` does not throw, and its id is not taken. */
  predicate WillSave(records: map<Id, ImageRecord>, userId: Id, f: UploadedFile, env: SaveEnv) {
    userId != "" && f.filename != "" && f.originalname != "" && f.path != "" && f.mimetype != ""
    && !env.saveThrows && env.newId !in records
  }

  /** A file whose document validates, does not throw on save and has an id
      not yet taken is saved. */
  lemma UploadStepSaves(st: UploadState, locked: set<string>, userId: Id, f: UploadedFile, env: SaveEnv, now: int)
    requires !st.crashed && WillSave(st.records, userId, f, env)
    ensures var r := Document(userId, f, env, now);
      UploadStep(st, locked, userId, f, env, now) == st.(saved := st.saved + [r], records := st.records[env.newId := r])
  {
  }

  /** The ids handed to the new documents. */
  function NewIds(envs: seq<SaveEnv>): set<Id>
    decreases |envs|
  {
    if envs == [] then {} else NewIds(envs[..|envs| - 1]) + {envs[|envs| - 1].newId}
  }

  /** A distinct id that is not among the earlier ones. */
  lemma {:induction false} NewIdsFresh(envs: seq<SaveEnv>, e: SaveEnv)
    requires forall i :: 0 <= i < |envs| ==> envs[i].newId != e.newId
    ensures e.newId !in NewIds(envs)
    decreases |envs|
  {
    if envs != [] {
      NewIdsFresh(envs[..|envs| - 1], e);
    }
  }

  /** When every document validates and gets a fresh distinct id, the loop
      never crashes, removes no file and adds only the new ids. */
  lemma {:induction false} UploadAllSavedKeys(records: map<Id, ImageRecord>, disk: set<string>, locked: set<string>,
                                             userId: Id, fs: seq<UploadedFile>, envs: seq<SaveEnv>, now: int)
    requires |fs| == |envs|
    requires forall i :: 0 <= i < |fs| ==> WillSave(records, userId, fs[i], envs[i])
    requires forall i, j :: 0 <= i < j < |envs| ==> envs[i].newId != envs[j].newId
    ensures var st := UploadFold(UploadState([], records, disk, false), locked, userId, fs, envs, now);
      !st.crashed && st.files == disk && st.records.Keys <= records.Keys + NewIds(envs)
    decreases |fs|
  {
    if fs != [] {
      var n := |fs| - 1;
      var fs', envs' := fs[..n], envs[..n];
      assert forall i :: 0 <= i < n ==> fs'[i] == fs[i] && envs'[i] == envs[i];
      UploadAllSavedKeys(records, disk, locked, userId, fs', envs', now);
      var prev := UploadFold(UploadState([], records, disk, false), locked, userId, fs', envs', now);
      NewIdsFresh(envs', envs[n]);
      assert envs[n].newId !in prev.records;
      UploadStepSaves(prev, locked, userId, fs[n], envs[n], now);
    }
  }

  /** The documents built for the files, in file order. */
  function Documents(userId: Id, fs: seq<UploadedFile>, envs: seq<SaveEnv>, now: int): (ds: seq<ImageRecord>)
    requires |fs| == |envs|
    ensures |ds| == |fs|
    decreases |fs|
  {
    if fs == [] then []
    else Documents(userId, fs[..|fs| - 1], envs[..|envs| - 1], now) + [Document(userId, fs[|fs| - 1], envs[|envs| - 1], now)]
  }

  lemma {:induction false} DocumentsAt(userId: Id, fs: seq<UploadedFile>, envs: seq<SaveEnv>, now: int, i: int)
    requires |fs| == |envs| && 0 <= i < |fs|
    ensures Documents(userId, fs, envs, now)[i] == Document(userId, fs[i], envs[i], now)
    decreases |fs|
  {
    if i < |fs| - 1 {
      DocumentsAt(userId, fs[..|fs| - 1], envs[..|envs| - 1], now, i);
    }
  }

  /** When every document validates, gets a fresh distinct id and saves, the
      response holds one document per file, in file order, and no file is
      removed. */
  lemma {:induction false} UploadAllSaved(records: map<Id, ImageRecord>, disk: set<string>, locked: set<string>,
                                         userId: Id, fs: seq<UploadedFile>, envs: seq<SaveEnv>, now: int)
    requires |fs| == |envs|
    requires forall i :: 0 <= i < |fs| ==> WillSave(records, userId, fs[i], envs[i])
    requires forall i, j :: 0 <= i < j < |envs| ==> envs[i].newId != envs[j].newId
    ensures var st := UploadFold(UploadState([], records, disk, false), locked, userId, fs, envs, now);
      !st.crashed && st.files == disk && st.saved == Documents(userId, fs, envs, now)
    decreases |fs|
  {
    if fs != [] {
      var n := |fs| - 1;
      var fs', envs' := fs[..n], envs[..n];
      assert forall i :: 0 <= i < n ==> fs'[i] == fs[i] && envs'[i] == envs[i];
      UploadAllSaved(records, disk, locked, userId, fs', envs', now);
      UploadAllSavedKeys(records, disk, locked, userId, fs', envs', now);
      var prev := UploadFold(UploadState([], records, disk, false), locked, userId, fs', envs', now);
      NewIdsFresh(envs', envs[n]);
      UploadStepSaves(prev, locked, userId, fs[n], envs[n], now);
    }
  }

  /** The n-th document of the response is the n-th file's. */
  lemma UploadAllSavedInOrder(records: map<Id, ImageRecord>, disk: set<string>, locked: set<string>,
                              userId: Id, fs: seq<UploadedFile>, envs: seq<SaveEnv>, now: int)
    requires |fs| == |envs|
    requires forall i :: 0 <= i < |fs| ==> WillSave(records, userId, fs[i], envs[i])
    requires forall i, j :: 0 <= i < j < |envs| ==> envs[i].newId != envs[j].newId
    ensures var st := UploadFold(UploadState([], records, disk, false), locked, userId, fs, envs, now);
      |st.saved| == |fs| && forall i :: 0 <= i < |fs| ==> st.saved[i] == Document(userId, fs[i], envs[i], now)
  {
    UploadAllSaved(records, disk, locked, userId, fs, envs, now);
    forall i | 0 <= i < |fs| ensures Documents(userId, fs, envs, now)[i] == Document(userId, fs[i], envs[i], now) {
      DocumentsAt(userId, fs, envs, now, i);
    }
  }

  // ---------------------------------------------------------------------
  // detectFaces

  const NotFound := "Image not found or access denied"
  const FileMissing := "Image file not found on disk"
  const ProcessingFailed := "Face detection processing failed"

  /** What awaiting the detector gives: the object it resolves with, or a rejection. */
  datatype DetectorOutcome = Resolved(out: DetectorOutput) | Rejected

  /** The controller calls `detectFaces` after taking it off the service object
      (`const { detectFaces } = require(...)`), so inside it `this` is undefined:
      `this.logger` throws in the `try` and again in the `catch`, and the call
      rejects. A call on the service object resolves with its result. */
  function CallDetector(boundToService: bool, result: DetectorOutput): DetectorOutcome {
    if boundToService then Resolved(result) else Rejected
  }

  /** What happens around one id apart from the store: whether `findOne`
      throws (an id that is not an ObjectId, a database error), the detector's
      outcome, the measured processing time, whether `save()` throws for a
      reason other than validation, and the clock. */
  datatype ItemEnv = ItemEnv(findThrows: bool, detector: DetectorOutcome, elapsed: int, saveThrows: bool, now: int)

  datatype ItemResult =
    | Detected(imageId: Id, filename: string, originalName: string, results: StoredResults)
    | Failed(imageId: Id, error: string)
  {
    function ImageId(): Id { match this case Detected(i, _, _, _) => i case Failed(i, _) => i }
  }

  /** The document after the results are assigned: the detector output with the
      controller's `processingTime` in place of its own, `processed` and
      `processedAt`. */
  function Processed(r: ImageRecord, out: DetectorOutput, env: ItemEnv): ImageRecord {
    r.(results := StoreResults(out.(processingTime := Some(env.elapsed))), processed := true, processedAt := Some(env.now))
  }

  /** One iteration of the loop: the entry pushed for `id` and the collection after it. */
  function Step(schema: LandmarkPath, records: map<Id, ImageRecord>, files: set<string>, userId: Id, id: Id, env: ItemEnv)
    : (ItemResult, map<Id, ImageRecord>)
  {
    if env.findThrows then (Failed(id, ProcessingFailed), records)
    else if !Owned(records, id, userId) then (Failed(id, NotFound), records)
    else if records[id].path !in files then (Failed(id, FileMissing), records)
    else match env.detector
      case Rejected => (Failed(id, ProcessingFailed), records)
      case Resolved(out) =>
        var updated := Processed(records[id], out, env);
        if env.saveThrows || !RecordValid(schema, updated) then (Failed(id, ProcessingFailed), records)
        else (Detected(id, updated.filename, updated.originalName, updated.results), records[id := updated])
  }

  /** The loop over `imageIds`: the entries in order and the final collection. */
  function Batch(schema: LandmarkPath, records: map<Id, ImageRecord>, files: set<string>, userId: Id, ids: seq<Id>, envs: seq<ItemEnv>)
    : (b: (seq<ItemResult>, map<Id, ImageRecord>))
    requires |ids| == |envs|
    ensures |b.0| == |ids| && b.1.Keys == records.Keys
    decreases |ids|
  {
    if ids == [] then ([], records)
    else
      var prev := Batch(schema, records, files, userId, ids[..|ids| - 1], envs[..|envs| - 1]);
      var next := Step(schema, prev.1, files, userId, ids[|ids| - 1], envs[|envs| - 1]);
      (prev.0 + [next.0], next.1)
  }

  function CountDetected(rs: seq<ItemResult>): (n: nat)
    ensures n <= |rs|
  {
    if rs == [] then 0 else (if rs[0].Detected? then 1 else 0) + CountDetected(rs[1..])
  }

  /** The number of failed entries the detection response reports, counting
      those whose error text is truthy
      (backend/controllers/imageController.js:160). */
  function CountFailed(rs: seq<ItemResult>): nat {
    if rs == [] then 0 else (if rs[0].Failed? && rs[0].error != "" then 1 else 0) + CountFailed(rs[1..])
  }

  lemma {:induction false} CountsPartition(rs: seq<ItemResult>)
    requires forall i :: 0 <= i < |rs| ==> rs[i].Failed? ==> rs[i].error != ""
    ensures CountDetected(rs) + CountFailed(rs) == |rs|
  {
    if rs != [] { CountsPartition(rs[1..]); }
  }

  datatype DetectResponse =
    | DetectRejected(status: int, message: string)
    | DetectCompleted(results: seq<ItemResult>, processed: nat, failed: nat)

  const ValidationError := DetectRejected(400, "Validation error")
  const NoImageIds := DetectRejected(400, "No image IDs provided")

  /** `detectFaces`. `imageIds` is None when the body field is missing or not
      an array; `schema` is the reading of the landmark path that `save()`
      validates against (`DeclaredLandmarks` for the schema as written). */
  method DetectFaces(schema: LandmarkPath, db: Store, userId: Id, validationFailed: bool, imageIds: Option<seq<Id>>,
                     envs: seq<ItemEnv>)
    returns (resp: DetectResponse)
    requires db.Valid()
    requires imageIds.Some? ==> |envs| == |imageIds.value|
    modifies db
    ensures db.Valid() && db.files == old(db.files) && db.dirs == old(db.dirs)
    ensures validationFailed ==> resp == ValidationError && db.records == old(db.records)
    ensures !validationFailed && (imageIds.None? || imageIds.value == []) ==>
      resp == NoImageIds && db.records == old(db.records)
    ensures !validationFailed && imageIds.Some? && imageIds.value != [] ==>
      var b := Batch(schema, old(db.records), old(db.files), userId, imageIds.value, envs);
      resp.DetectCompleted? && resp.results == b.0 && db.records == b.1
      && resp.processed == CountDetected(b.0) && resp.failed == CountFailed(b.0)
      && resp.processed + resp.failed == |imageIds.value|
  {
    if validationFailed {
      return ValidationError;
    }
    if imageIds.None? || imageIds.value == [] {
      return NoImageIds;
    }
    var ids := imageIds.value;
    var results: seq<ItemResult> := [];
    var i := 0;
    while i < |ids|
      invariant 0 <= i <= |ids|
      invariant (results, db.records) == Batch(schema, old(db.records), db.files, userId, ids[..i], envs[..i])
      invariant db.Valid() && db.files == old(db.files) && db.dirs == old(db.dirs)
    {
      assert ids[..i + 1][..i] == ids[..i] && envs[..i + 1][..i] == envs[..i];
      var entry := DetectOne(schema, db, userId, ids[i], envs[i]);
      results := results + [entry];
      i := i + 1;
    }
    assert ids[..|ids|] == ids && envs[..|envs|] == envs;
    BatchCounts(schema, old(db.records), db.files, userId, ids, envs);
    resp := DetectCompleted(results, CountDetected(results), CountFailed(results));
  }

  /** One pass of the loop body: the entry pushed for `id`, with the record
      written exactly as `Step` says. */
  method DetectOne(schema: LandmarkPath, db: Store, userId: Id, id: Id, env: ItemEnv) returns (entry: ItemResult)
    requires db.Valid()
    modifies db`records
    ensures db.Valid()
    ensures (entry, db.records) == Step(schema, old(db.records), db.files, userId, id, env)
  {
    if env.findThrows {
      return Failed(id, ProcessingFailed);
    }
    if !(id in db.records && db.records[id].userId == userId) {
      return Failed(id, NotFound);
    }
    var image := db.records[id];
    if image.path !in db.files {
      return Failed(id, FileMissing);
    }
    match env.detector
    case Rejected =>
      return Failed(id, ProcessingFailed);
    case Resolved(out) =>
      var updated := image.(results := StoreResults(out.(processingTime := Some(env.elapsed))),
                            processed := true, processedAt := Some(env.now));
      if env.saveThrows || !RecordValid(schema, updated) {
        return Failed(id, ProcessingFailed);
      }
      db.records := db.records[id := updated];
      return Detected(id, updated.filename, updated.originalName, updated.results);
  }

  /** A record with its detection state forgotten: what the loop never changes. */
  function Identity(r: ImageRecord): ImageRecord {
    r.(results := NoResults, processed := false, processedAt := None)
  }

  predicate SameIdentity(a: map<Id, ImageRecord>, b: map<Id, ImageRecord>) {
    a.Keys == b.Keys && forall k :: k in a ==> Identity(a[k]) == Identity(b[k])
  }

  lemma ProcessedByIdentity(r1: ImageRecord, r2: ImageRecord, out: DetectorOutput, env: ItemEnv)
    requires Identity(r1) == Identity(r2)
    ensures Processed(r1, out, env) == Processed(r2, out, env)
    ensures Identity(Processed(r1, out, env)) == Identity(r1)
  {
    assert r1.id == Identity(r1).id && r2.id == Identity(r2).id;
    assert r1.userId == Identity(r1).userId && r2.userId == Identity(r2).userId;
    assert r1.filename == Identity(r1).filename && r2.filename == Identity(r2).filename;
    assert r1.originalName == Identity(r1).originalName && r2.originalName == Identity(r2).originalName;
    assert r1.path == Identity(r1).path && r2.path == Identity(r2).path;
    assert r1.size == Identity(r1).size && r2.size == Identity(r2).size;
    assert r1.mimetype == Identity(r1).mimetype && r2.mimetype == Identity(r2).mimetype;
    assert r1.uploadedAt == Identity(r1).uploadedAt && r2.uploadedAt == Identity(r2).uploadedAt;
  }

  /** An iteration's entry depends only on what earlier iterations cannot
      change, and it changes nothing of that. */
  lemma StepByIdentity(schema: LandmarkPath, a: map<Id, ImageRecord>, b: map<Id, ImageRecord>, files: set<string>, userId: Id, id: Id, env: ItemEnv)
    requires SameIdentity(a, b)
    ensures Step(schema, a, files, userId, id, env).0 == Step(schema, b, files, userId, id, env).0
  {
    if !env.findThrows && id in a {
      assert a[id].userId == Identity(a[id]).userId == Identity(b[id]).userId == b[id].userId;
      assert a[id].path == Identity(a[id]).path == Identity(b[id]).path == b[id].path;
      if env.detector.Resolved? {
        ProcessedByIdentity(a[id], b[id], env.detector.out, env);
      }
    }
  }

  /** The collection after an iteration: the processed record on success,
      unchanged otherwise. */
  lemma StepWrites(schema: LandmarkPath, recs: map<Id, ImageRecord>, files: set<string>, userId: Id, id: Id, env: ItemEnv)
    ensures var s := Step(schema, recs, files, userId, id, env);
      (s.0.Detected? ==> id in recs && env.detector.Resolved? && s.1 == recs[id := WrittenBy(recs[id], env)])
      && (s.0.Failed? ==> s.1 == recs)
  {
  }

  lemma StepKeepsIdentity(schema: LandmarkPath, recs: map<Id, ImageRecord>, files: set<string>, userId: Id, id: Id, env: ItemEnv)
    ensures SameIdentity(recs, Step(schema, recs, files, userId, id, env).1)
  {
    StepWrites(schema, recs, files, userId, id, env);
    var s := Step(schema, recs, files, userId, id, env);
    if s.0.Detected? {
      ProcessedByIdentity(recs[id], recs[id], env.detector.out, env);
    }
  }

  lemma SameIdentityTrans(a: map<Id, ImageRecord>, b: map<Id, ImageRecord>, c: map<Id, ImageRecord>)
    requires SameIdentity(a, b) && SameIdentity(b, c)
    ensures SameIdentity(a, c) && SameIdentity(c, a)
  {
  }

  /** The loop changes only the detection state of records. */
  lemma {:induction false} BatchKeepsIdentity(schema: LandmarkPath, records: map<Id, ImageRecord>, files: set<string>, userId: Id, ids: seq<Id>, envs: seq<ItemEnv>)
    requires |ids| == |envs|
    ensures SameIdentity(records, Batch(schema, records, files, userId, ids, envs).1)
    decreases |ids|
  {
    if ids != [] {
      var n := |ids| - 1;
      BatchKeepsIdentity(schema, records, files, userId, ids[..n], envs[..n]);
      var prev := Batch(schema, records, files, userId, ids[..n], envs[..n]);
      StepKeepsIdentity(schema, prev.1, files, userId, ids[n], envs[n]);
      SameIdentityTrans(records, prev.1, Step(schema, prev.1, files, userId, ids[n], envs[n]).1);
    }
  }

  /** Every id gets exactly one entry, in input order, and that entry is what
      the id alone yields against the collection as it was before the loop:
      an exception or a failure for one id does not affect any other. */
  lemma {:induction false} BatchResults(schema: LandmarkPath, records: map<Id, ImageRecord>, files: set<string>, userId: Id, ids: seq<Id>, envs: seq<ItemEnv>)
    requires |ids| == |envs|
    ensures forall i :: 0 <= i < |ids| ==>
      Batch(schema, records, files, userId, ids, envs).0[i] == Step(schema, records, files, userId, ids[i], envs[i]).0
    decreases |ids|
  {
    if ids != [] {
      var n := |ids| - 1;
      BatchResults(schema, records, files, userId, ids[..n], envs[..n]);
      BatchKeepsIdentity(schema, records, files, userId, ids[..n], envs[..n]);
      var prev := Batch(schema, records, files, userId, ids[..n], envs[..n]);
      SameIdentityTrans(records, prev.1, prev.1);
      StepByIdentity(schema, prev.1, records, files, userId, ids[n], envs[n]);
      forall i | 0 <= i < n ensures ids[..n][i] == ids[i] && envs[..n][i] == envs[i] { }
    }
  }

  /** What an entry says about its id, against the collection before the loop:
      a lookup exception or any later failure is 'processing failed'; a record
      that is missing or belongs to someone else is 'not found or access
      denied'; a missing file is 'not found on disk'; otherwise the entry is the
      stored results, exactly when the detector resolved and the save went through. */
  lemma StepCases(schema: LandmarkPath, records: map<Id, ImageRecord>, files: set<string>, userId: Id, id: Id, env: ItemEnv)
    ensures var e := Step(schema, records, files, userId, id, env).0;
      e.ImageId() == id
      && (e == Failed(id, NotFound) <==> !env.findThrows && !Owned(records, id, userId))
      && (e == Failed(id, FileMissing) <==> !env.findThrows && Owned(records, id, userId) && records[id].path !in files)
      && (e.Detected? <==>
            !env.findThrows && Owned(records, id, userId) && records[id].path in files
            && env.detector.Resolved? && !env.saveThrows && RecordValid(schema, Processed(records[id], env.detector.out, env)))
      && (e.Detected? ==>
            e.filename == records[id].filename && e.originalName == records[id].originalName
            && e.results == StoreResults(env.detector.out.(processingTime := Some(env.elapsed))))
      && (e.Failed? ==> e.error in {NotFound, FileMissing, ProcessingFailed})
  {
  }

  /** The record as a successful iteration with this environment leaves it. */
  function WrittenBy(r: ImageRecord, env: ItemEnv): ImageRecord {
    if env.detector.Resolved? then Processed(r, env.detector.out, env) else r
  }

  /** The index of the last successful entry for `k`, if any. */
  function LastDetected(k: Id, ids: seq<Id>, rs: seq<ItemResult>): (j: Option<nat>)
    requires |ids| == |rs|
    ensures j.Some? ==> (j.value < |ids| && ids[j.value] == k && rs[j.value].Detected?
      && forall i :: j.value < i < |ids| ==> !(ids[i] == k && rs[i].Detected?))
    ensures j.None? ==> forall i :: 0 <= i < |ids| ==> !(ids[i] == k && rs[i].Detected?)
    decreases |ids|
  {
    if ids == [] then None
    else if ids[|ids| - 1] == k && rs[|rs| - 1].Detected? then Some(|ids| - 1)
    else LastDetected(k, ids[..|ids| - 1], rs[..|rs| - 1])
  }

  /** A record's final value: untouched without a successful entry, otherwise
      what its last successful entry wrote. */
  function FinalRecord(r: ImageRecord, k: Id, ids: seq<Id>, envs: seq<ItemEnv>, rs: seq<ItemResult>): ImageRecord
    requires |ids| == |envs| == |rs|
  {
    match LastDetected(k, ids, rs)
    case None => r
    case Some(j) => WrittenBy(r, envs[j])
  }

  lemma {:induction false} BatchFinalRecordAt(schema: LandmarkPath, records: map<Id, ImageRecord>, files: set<string>, userId: Id,
                                             ids: seq<Id>, envs: seq<ItemEnv>, k: Id)
    requires |ids| == |envs| && k in records
    ensures var b := Batch(schema, records, files, userId, ids, envs);
      b.1[k] == FinalRecord(records[k], k, ids, envs, b.0)
    decreases |ids|
  {
    if ids != [] {
      var n := |ids| - 1;
      BatchFinalRecordAt(schema, records, files, userId, ids[..n], envs[..n], k);
      var prev := Batch(schema, records, files, userId, ids[..n], envs[..n]);
      var b := Batch(schema, records, files, userId, ids, envs);
      assert b.0[..n] == prev.0;
      StepWrites(schema, prev.1, files, userId, ids[n], envs[n]);
      if k == ids[n] && b.0[n].Detected? {
        BatchKeepsIdentity(schema, records, files, userId, ids[..n], envs[..n]);
        assert Identity(prev.1[k]) == Identity(records[k]);
        ProcessedByIdentity(prev.1[k], records[k], envs[n].detector.out, envs[n]);
      } else {
        assert LastDetected(k, ids, b.0) == LastDetected(k, ids[..n], prev.0);
        var j := LastDetected(k, ids[..n], prev.0);
        if j.Some? { assert envs[..n][j.value] == envs[j.value]; }
      }
    }
  }

  /** The collection after the loop: a record with no successful entry is
      untouched; otherwise it holds what its last successful entry stored. No
      record is added or removed. */
  lemma BatchFinalRecords(schema: LandmarkPath, records: map<Id, ImageRecord>, files: set<string>, userId: Id, ids: seq<Id>, envs: seq<ItemEnv>)
    requires |ids| == |envs|
    ensures var b := Batch(schema, records, files, userId, ids, envs);
      b.1.Keys == records.Keys
      && forall k :: k in records ==> b.1[k] == FinalRecord(records[k], k, ids, envs, b.0)
  {
    forall k | k in records
      ensures Batch(schema, records, files, userId, ids, envs).1[k]
        == FinalRecord(records[k], k, ids, envs, Batch(schema, records, files, userId, ids, envs).0)
    {
      BatchFinalRecordAt(schema, records, files, userId, ids, envs, k);
    }
  }

  /** The entry counts match the input: one entry per id, failures plus
      successes equal to the number of ids. */
  lemma BatchCounts(schema: LandmarkPath, records: map<Id, ImageRecord>, files: set<string>, userId: Id, ids: seq<Id>, envs: seq<ItemEnv>)
    requires |ids| == |envs|
    ensures var rs := Batch(schema, records, files, userId, ids, envs).0;
      CountDetected(rs) + CountFailed(rs) == |ids|
  {
    BatchResults(schema, records, files, userId, ids, envs);
    var rs := Batch(schema, records, files, userId, ids, envs).0;
    forall i | 0 <= i < |rs| ensures rs[i].Failed? ==> rs[i].error != "" {
      StepCases(schema, records, files, userId, ids[i], envs[i]);
    }
    CountsPartition(rs);
  }

  /** As written, the detector call always rejects: every id fails and no record
      is ever marked processed. */
  lemma AsWrittenNothingProcessed(schema: LandmarkPath, records: map<Id, ImageRecord>, files: set<string>, userId: Id, ids: seq<Id>,
                                  envs: seq<ItemEnv>, outs: seq<DetectorOutput>)
    requires |ids| == |envs| == |outs|
    requires forall i :: 0 <= i < |envs| ==> envs[i].detector == CallDetector(false, outs[i])
    ensures var b := Batch(schema, records, files, userId, ids, envs);
      CountDetected(b.0) == 0 && b.1 == records
      && forall i :: 0 <= i < |ids| ==> b.0[i].Failed?
  {
    BatchResults(schema, records, files, userId, ids, envs);
    BatchFinalRecords(schema, records, files, userId, ids, envs);
    var b := Batch(schema, records, files, userId, ids, envs);
    forall i | 0 <= i < |ids| ensures b.0[i].Failed? {
      StepCases(schema, records, files, userId, ids[i], envs[i]);
    }
    NoneDetected(b.0);
    forall k | k in records ensures b.1[k] == records[k] {
      assert LastDetected(k, ids, b.0).None?;
    }
  }

  lemma {:induction false} NoneDetected(rs: seq<ItemResult>)
    requires forall i :: 0 <= i < |rs| ==> rs[i].Failed?
    ensures CountDetected(rs) == 0
  {
    if rs != [] { NoneDetected(rs[1..]); }
  }

  /** With the detector called on the service object, which always resolves,
      the landmark path declared as sub-documents and no store failure, every
      owned record whose file exists is processed and ends up holding its last
      result. */
  lemma CorrectedOwnedOnDiskProcessed(records: map<Id, ImageRecord>, files: set<string>, userId: Id, ids: seq<Id>,
                                      envs: seq<ItemEnv>, outs: seq<DetectorOutput>, i: nat)
    requires |ids| == |envs| == |outs| && i < |ids|
    requires forall j :: 0 <= j < |envs| ==> envs[j].detector == CallDetector(true, outs[j])
    requires !envs[i].findThrows && !envs[i].saveThrows
    requires Owned(records, ids[i], userId) && records[ids[i]].path in files && RecordValid(LandmarkDocuments, records[ids[i]])
    requires forall f :: f in outs[i].faces ==> FaceValid(f)
    ensures var b := Batch(LandmarkDocuments, records, files, userId, ids, envs);
      b.0[i].Detected? && b.0[i].results == StoreResults(outs[i].(processingTime := Some(envs[i].elapsed)))
      && b.1[ids[i]].processed
  {
    BatchResults(LandmarkDocuments, records, files, userId, ids, envs);
    BatchFinalRecords(LandmarkDocuments, records, files, userId, ids, envs);
    ProcessedRecordValid(LandmarkDocuments, records[ids[i]], outs[i].(processingTime := Some(envs[i].elapsed)), envs[i].now);
    StepCases(LandmarkDocuments, records, files, userId, ids[i], envs[i]);
  }

  /** Under the landmark path as declared, even with the detector bound and no
      store failure, an image whose result holds a face with landmarks fails
      with 'Face processing failed' and its record is left as it was. */
  lemma AsWrittenLandmarkFacesFail(records: map<Id, ImageRecord>, files: set<string>, userId: Id, ids: seq<Id>,
                                   envs: seq<ItemEnv>, outs: seq<DetectorOutput>, i: nat, j: nat)
    requires |ids| == |envs| == |outs| && i < |ids|
    requires forall n :: 0 <= n < |envs| ==> envs[n].detector == CallDetector(true, outs[n])
    requires !envs[i].findThrows && Owned(records, ids[i], userId) && records[ids[i]].path in files
    requires j < |outs[i].faces| && outs[i].faces[j].landmarks != []
    ensures Batch(DeclaredLandmarks, records, files, userId, ids, envs).0[i] == Failed(ids[i], ProcessingFailed)
  {
    BatchResults(DeclaredLandmarks, records, files, userId, ids, envs);
    AsWrittenLandmarksRefused(records[ids[i]], outs[i].(processingTime := Some(envs[i].elapsed)), envs[i].now, j);
  }

  // ---------------------------------------------------------------------
  // getUserImages

  /** The filter `{ userId, processed? }`: `processed` only when the query
      parameter is present, and then `processed === 'true'`. */
  datatype Query = Query(userId: Id, processed: Option<bool>)

  function QueryFor(userId: Id, processed: Option<string>): Query {
    Query(userId, if processed.Some? then Some(processed.value == "true") else None)
  }

  predicate Matches(r: ImageRecord, q: Query) {
    r.userId == q.userId && (q.processed.None? || r.processed == q.processed.value)
  }

  lemma QueryForMatches(r: ImageRecord, userId: Id, processed: Option<string>)
    ensures Matches(r, QueryFor(userId, processed)) <==>
      r.userId == userId && (processed == None || (r.processed <==> processed.value == "true"))
  {
  }

  /** The sort direction of the listing: -1 for 'desc' and 1 for anything else
      (backend/controllers/imageController.js:186). */
  function SortDirection(sortOrder: string): int {
    if sortOrder == "desc" then -1 else 1
  }

  /** The number of pages in the listing: the quotient of total by limit
      rounded up, or None for the non-finite quotient of a zero limit
      (backend/controllers/imageController.js:208). */
  function Pages(total: nat, limit: int): Option<int> {
    if limit > 0 then Some((total + limit - 1) / limit)
    else if limit < 0 then Some(-(total / -limit))
    else None
  }

  function Skip(page: int, limit: int): int { (page - 1) * limit }

  /** For a positive limit, `pages` is the least number of pages of `limit`
      records that hold `total` records. */
  lemma PagesIsCeiling(total: nat, limit: int)
    requires limit > 0
    ensures Pages(total, limit).Some?
    ensures var p := Pages(total, limit).value;
      p >= 0 && p * limit >= total && (p == 0 || (p - 1) * limit < total)
  {
    var p := (total + limit - 1) / limit;
    var r := (total + limit - 1) % limit;
    assert total + limit - 1 == p * limit + r && 0 <= r < limit;
    assert p * limit >= total;
    assert (p - 1) * limit == p * limit - limit;
  }

  /** Page `page` (from 1) starts after `skip` records, and it is non-empty
      exactly when `page <= pages`. */
  lemma PageWithinRange(total: nat, page: int, limit: int)
    requires limit > 0 && page >= 1
    ensures Skip(page, limit) >= 0
    ensures Skip(page, limit) < total <==> page <= Pages(total, limit).value
  {
    PagesIsCeiling(total, limit);
    var p := Pages(total, limit).value;
    assert Skip(page, limit) == (page - 1) * limit;
    if page <= p {
      assert (page - 1) * limit <= (p - 1) * limit;
    } else {
      assert (page - 1) * limit >= p * limit;
    }
  }

  /** The pagination numbers of a listing; None is `NaN`, which the JSON
      response renders as null. */
  datatype Listing = Listing(query: Query, sortKey: string, sortDirection: int, page: Option<int>, limit: Option<int>,
                             skip: Option<int>, total: nat, pages: Option<int>)

  ghost function MatchingIds(records: map<Id, ImageRecord>, q: Query): set<Id> {
    set k | k in records && Matches(records[k], q)
  }

  /** `parseInt` of a query parameter, or of its numeric default when absent. */
  function QueryNumber(v: Option<string>, default: int): (r: Option<int>)
    ensures v.None? ==> r == Some(default)
    ensures v.Some? ==> r == ParseInt(v.value)
  {
    if v.None? then Some(default) else ParseInt(v.value)
  }

  /** `getUserImages`: `page` and `limit` are query strings read with
      `parseInt` (defaults 1 and 20), `sortBy` names the sort key (default
      'uploadedAt'), then the count of matching records and the pagination
      arithmetic, where any `NaN` operand gives `NaN`; the page of documents
      itself is the query engine's. */
  ghost function UserImagesListing(records: map<Id, ImageRecord>, userId: Id, page: Option<string>, limit: Option<string>,
                                   processed: Option<string>, sortBy: Option<string>, sortOrder: Option<string>): (l: Listing)
    ensures l.page == QueryNumber(page, 1) && l.limit == QueryNumber(limit, 20)
    ensures l.sortKey == (if sortBy.Some? then sortBy.value else "uploadedAt")
    ensures l.sortDirection == (if sortOrder.None? || sortOrder.value == "desc" then -1 else 1)
    ensures l.skip.Some? <==> l.page.Some? && l.limit.Some?
    ensures l.skip.Some? ==> l.skip.value == Skip(l.page.value, l.limit.value)
    ensures l.pages == (if l.limit.Some? then Pages(l.total, l.limit.value) else None)
    ensures l.total == |MatchingIds(records, l.query)|
    ensures forall k :: k in records && Matches(records[k], l.query) ==> records[k].userId == userId
  {
    var q := QueryFor(userId, processed);
    var p, n := QueryNumber(page, 1), QueryNumber(limit, 20);
    var total := |MatchingIds(records, q)|;
    Listing(q, sortBy.GetOr("uploadedAt"), SortDirection(sortOrder.GetOr("desc")), p, n,
            if p.Some? && n.Some? then Some(Skip(p.value, n.value)) else None,
            total, if n.Some? then Pages(total, n.value) else None)
  }

  /** A page number written out in the query is read back as that number, so
      the listing skips the pages before it. */
  lemma ListingOfWrittenPage(records: map<Id, ImageRecord>, userId: Id, page: nat, limit: nat,
                             processed: Option<string>, sortBy: Option<string>, sortOrder: Option<string>)
    ensures var l := UserImagesListing(records, userId, Some(NatToString(page)), Some(NatToString(limit)),
                                       processed, sortBy, sortOrder);
      l.page == Some(page) && l.limit == Some(limit) && l.skip == Some((page - 1) * limit)
  {
    ParseIntOfNatToString(page);
    ParseIntOfNatToString(limit);
  }

  /** `parseInt` keeps the leading digits of '2.5' and finds none in 'x', so
      `?page=2.5` lists page 2 and `?limit=x` makes limit, skip and pages
      `NaN`. */
  lemma ListingParsesLoosely(records: map<Id, ImageRecord>, userId: Id)
    ensures var l := UserImagesListing(records, userId, Some("2.5"), None, None, None, None);
      l.page == Some(2) && l.skip == Some(20)
    ensures var l := UserImagesListing(records, userId, None, Some("x"), None, None, None);
      l.limit == None && l.skip == None && l.pages == None
  {
    ParseIntOfFraction();
    ParseIntOfLetters();
  }

  // ---------------------------------------------------------------------
  // deleteImage and bulkDeleteImages

  datatype DeleteResponse = DeleteResponse(status: int, message: string)

  /** `deleteImage`. `findThrows` is a `findOneAndDelete` that throws (an id
      that is not an ObjectId, a database error). */
  method DeleteImage(db: Store, userId: Id, imageId: Id, findThrows: bool) returns (resp: DeleteResponse)
    requires db.Valid()
    modifies db
    ensures db.Valid() && db.dirs == old(db.dirs)
    ensures findThrows ==>
      resp == DeleteResponse(500, "Internal server error") && db.records == old(db.records) && db.files == old(db.files)
    ensures !findThrows && !Owned(old(db.records), imageId, userId) ==>
      resp == DeleteResponse(404, "Image not found") && db.records == old(db.records) && db.files == old(db.files)
    ensures !findThrows && Owned(old(db.records), imageId, userId) ==>
      var p := old(db.records)[imageId].path;
      resp == DeleteResponse(200, "Image deleted successfully")
      && db.records == old(db.records) - {imageId}
      && db.files == (if p in db.locked then old(db.files) else old(db.files) - {p})
  {
    if findThrows {
      return DeleteResponse(500, "Internal server error");
    }
    if !(imageId in db.records && db.records[imageId].userId == userId) {
      return DeleteResponse(404, "Image not found");
    }
    var image := db.records[imageId];
    db.records := db.records - {imageId};
    if image.path in db.files {
      if image.path !in db.locked {
        db.files := db.files - {image.path};
      }
      // otherwise the unlink error is only logged
    }
    resp := DeleteResponse(200, "Image deleted successfully");
  }

  datatype BulkDeleteResponse =
    | BulkRejected(status: int, message: string)
    | BulkDeleted(deleted: nat, filesDeleted: nat)

  /** The records `find({ _id: { $in: ids }, userId })` returns. */
  function OwnedAmong(records: map<Id, ImageRecord>, ids: seq<Id>, userId: Id): (found: set<Id>)
    ensures forall k :: k in found <==> k in records && k in ids && records[k].userId == userId
  {
    set k | k in records.Keys && k in ids && records[k].userId == userId
  }

  /** The delete loop's invariant: the files of the records handled so far are
      gone except the locked ones, and `filesDeleted` counts the removals. */
  ghost predicate BulkInv(records: map<Id, ImageRecord>, found: set<Id>, remaining: set<Id>,
                          files0: set<string>, files: set<string>, locked: set<string>, n: nat) {
    remaining <= found && found <= records.Keys
    && files <= files0 && files == files0 - (PathsOf(records, found - remaining) - locked)
    && n == |files0 - files| && n <= |found - remaining|
  }

  /** One iteration of the delete loop keeps the invariant: the record's file
      is removed when it exists and is not locked, and left otherwise. */
  lemma BulkStep(records: map<Id, ImageRecord>, found: set<Id>, remaining: set<Id>,
                 files0: set<string>, files: set<string>, locked: set<string>, n: nat, k: Id)
    requires BulkInv(records, found, remaining, files0, files, locked, n) && k in remaining
    ensures var p := records[k].path;
      if p in files && p !in locked then BulkInv(records, found, remaining - {k}, files0, files - {p}, locked, n + 1)
      else BulkInv(records, found, remaining - {k}, files0, files, locked, n)
  {
    var p := records[k].path;
    var done := found - remaining;
    OneMore(found, remaining, k);
    PathsOfAdd(records, done, k);
    var before := PathsOf(records, done);
    var after := PathsOf(records, found - (remaining - {k}));
    assert after == before + {p};
    if p in files && p !in locked {
      OneMore(files0, files, p);
      SubtractOneMore(files0, before, locked, p);
    } else {
      SubtractSame(files0, files, before, locked, p);
    }
  }

  lemma OneMore<T>(whole: set<T>, part: set<T>, x: T)
    requires part <= whole && x in part
    ensures whole - (part - {x}) == (whole - part) + {x}
    ensures |whole - (part - {x})| == |whole - part| + 1
  {
    assert whole - (part - {x}) == (whole - part) + {x};
  }

  lemma SubtractOneMore<T>(whole: set<T>, gone: set<T>, kept: set<T>, x: T)
    requires x !in kept
    ensures whole - ((gone + {x}) - kept) == (whole - (gone - kept)) - {x}
  {
  }

  lemma SubtractSame<T>(whole: set<T>, rest: set<T>, gone: set<T>, kept: set<T>, x: T)
    requires rest == whole - (gone - kept) && (x !in rest || x in kept)
    ensures rest == whole - ((gone + {x}) - kept)
  {
  }

  lemma PathsOfAdd(records: map<Id, ImageRecord>, done: set<Id>, k: Id)
    requires k in records
    ensures PathsOf(records, done + {k}) == PathsOf(records, done) + {records[k].path}
  {
  }

  /** The loop over the found images: unlink each existing file, counting the
      unlinks that succeed. */
  method DeleteFiles(db: Store, found: set<Id>) returns (filesDeleted: nat)
    requires found <= db.records.Keys
    modifies db`files
    ensures db.files == old(db.files) - (PathsOf(db.records, found) - db.locked)
    ensures filesDeleted == |old(db.files) - db.files| && filesDeleted <= |found|
  {
    filesDeleted := 0;
    var remaining := found;
    var records, locked := db.records, db.locked;
    ghost var files0 := db.files;
    while remaining != {}
      invariant BulkInv(records, found, remaining, files0, db.files, locked, filesDeleted)
      decreases |remaining|
    {
      var k :| k in remaining;
      var p := records[k].path;
      BulkStep(records, found, remaining, files0, db.files, locked, filesDeleted, k);
      if p in db.files && p !in locked {
        db.files := db.files - {p};
        filesDeleted := filesDeleted + 1;
      }
      remaining := remaining - {k};
    }
    assert found - remaining == found;
  }

  /** `bulkDeleteImages`. `imageIds` is None when the body field is missing or
      not an array; `findThrows` is a `find` that throws, and `deleteThrows`
      a `deleteMany` that throws after the files are already unlinked. */
  method BulkDeleteImages(db: Store, userId: Id, imageIds: Option<seq<Id>>, findThrows: bool, deleteThrows: bool)
    returns (resp: BulkDeleteResponse)
    requires db.Valid()
    modifies db
    ensures db.Valid() && db.dirs == old(db.dirs)
    ensures imageIds.None? || imageIds.value == [] ==>
      resp == BulkRejected(400, "No image IDs provided") && db.records == old(db.records) && db.files == old(db.files)
    ensures imageIds.Some? && imageIds.value != [] && findThrows ==>
      resp == BulkRejected(500, "Internal server error") && db.records == old(db.records) && db.files == old(db.files)
    ensures imageIds.Some? && imageIds.value != [] && !findThrows && OwnedAmong(old(db.records), imageIds.value, userId) == {} ==>
      resp == BulkRejected(404, "No images found") && db.records == old(db.records) && db.files == old(db.files)
    ensures imageIds.Some? && imageIds.value != [] && !findThrows && OwnedAmong(old(db.records), imageIds.value, userId) != {} ==>
      var found := OwnedAmong(old(db.records), imageIds.value, userId);
      db.files == old(db.files) - (PathsOf(old(db.records), found) - db.locked)
    ensures (imageIds.Some? && imageIds.value != [] && !findThrows && OwnedAmong(old(db.records), imageIds.value, userId) != {}
      && deleteThrows) ==>
      resp == BulkRejected(500, "Internal server error") && db.records == old(db.records)
    ensures (imageIds.Some? && imageIds.value != [] && !findThrows && OwnedAmong(old(db.records), imageIds.value, userId) != {}
      && !deleteThrows) ==>
      var found := OwnedAmong(old(db.records), imageIds.value, userId);
      resp.BulkDeleted? && resp.deleted == |found|
      && db.records == old(db.records) - found
      && db.files == old(db.files) - (PathsOf(old(db.records), found) - db.locked)
      && resp.filesDeleted == |old(db.files) - db.files|
      && resp.filesDeleted <= resp.deleted
  {
    if imageIds.None? || imageIds.value == [] {
      return BulkRejected(400, "No image IDs provided");
    }
    if findThrows {
      return BulkRejected(500, "Internal server error");
    }
    var found := OwnedAmong(db.records, imageIds.value, userId);
    if found == {} {
      return BulkRejected(404, "No images found");
    }
    var filesDeleted := DeleteFiles(db, found);
    if deleteThrows {
      return BulkRejected(500, "Internal server error");
    }
    db.records := db.records - found;
    resp := BulkDeleted(|found|, filesDeleted);
  }
}
