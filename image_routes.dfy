/** The second copy of the image routes (`routes/images.js`): its own multer
    filter and naming, an upload that stops at the first failed save, a
    detection loop that skips ids it cannot find and checks no file, and a
    delete that may answer 500 after the record is gone. */
module ImageRoutes {
  import opened Wrappers
  import opened Strings
  import opened Faces
  import opened ImageSchema
  import opened Storage
  import opened Upload
  import opened ImageController

  // ---------------------------------------------------------------------
  // multer configuration

  /** The route's type pattern: one of the four words occurs somewhere in the
      text, in lower case (backend/routes/images.js). */
  predicate TypePattern(s: string) {
    Contains(s, "jpeg") || Contains(s, "jpg") || Contains(s, "png") || Contains(s, "webp")
  }

  const OnlyImages := "Only image files (jpeg, jpg, png, webp) are allowed"

  /** The route's `fileFilter`: the pattern must occur in the lower-cased
      extension and in the MIME type as sent. */
  function RouteFileFilter(originalName: string, mimetype: string): (r: FilterResult)
    ensures r.Accepted? <==> TypePattern(Lower(ExtName(originalName))) && TypePattern(mimetype)
    ensures r.Refused? ==> r.message == OnlyImages
  {
    if TypePattern(mimetype) && TypePattern(Lower(ExtName(originalName))) then Accepted else Refused(OnlyImages)
  }

  /** Because the pattern is unanchored, any extension and MIME type that
      merely contain one of the four words pass. */
  lemma RouteFilterUnanchored(b: string, x: string, pre: string, post: string)
    requires b != [] && '.' !in x && b + "." + x != ".." && Lower(x) == x
    requires Contains(x, "png")
    ensures RouteFileFilter(b + "." + x, pre + "png" + post) == Accepted
  {
    ExtensionHasPng(b, x);
    ContainsItself("png");
    ContainsWithin(pre, "png", post, "png");
  }

  lemma ExtensionHasPng(b: string, x: string)
    requires b != [] && '.' !in x && b + "." + x != ".." && Lower(x) == x
    requires Contains(x, "png")
    ensures Contains(Lower(ExtName(b + "." + x)), "png")
  {
    ExtNameOf(b, x);
    assert Lower("." + x) == "." + x;
    ContainsWithin(".", x, "", "png");
    assert "." + x + "" == "." + x;
  }

  /** A MIME type in upper case has none of the four words, so this copy
      refuses what the middleware's filter, which lower-cases it, accepts. */
  lemma RouteFilterCaseSensitive(m: string)
    requires forall i :: 0 <= i < |m| ==> !('a' <= m[i] <= 'z')
    ensures RouteFileFilter("photo.png", m) == Refused(OnlyImages)
  {
    NoOccurrence(m, "jpeg");
    NoOccurrence(m, "jpg");
    NoOccurrence(m, "png");
    NoOccurrence(m, "webp");
  }

  /** A word that starts with a lower-case letter does not occur in a text
      that has none. */
  lemma NoOccurrence(m: string, w: string)
    requires |w| > 0 && 'a' <= w[0] <= 'z'
    requires forall i :: 0 <= i < |m| ==> !('a' <= m[i] <= 'z')
    ensures !Contains(m, w)
  {
    forall i | 0 <= i <= |m| - |w| ensures !OccursAt(m, w, i) {
      assert m[i..i + |w|][0] == m[i];
    }
  }

  /** The route's limits: 5 MB per file and ten files. */
  const RouteLimits := Limits(5 * 1024 * 1024, 10)

  /** They equal the middleware's defaults. */
  lemma RouteLimitsAreDefaults()
    ensures RouteLimits == UploadLimits(None, None)
  {
  }

  /** The route's `filename`: field name, clock, a rounded random number
      below 10^9 + 1, and the original extension with its case kept. */
  function RouteFilename(fieldName: string, now: nat, rounded: nat, originalName: string): (r: string)
    ensures StartsWith(r, fieldName + "-") && EndsWith(r, ExtName(originalName))
  {
    var r := fieldName + "-" + NatToString(now) + "-" + NatToString(rounded) + ExtName(originalName);
    assert r[..|fieldName| + 1] == fieldName + "-";
    r
  }

  // ---------------------------------------------------------------------
  // POST /upload

  /** The documents saved so far, the collection, and whether a save threw. */
  datatype SaveState = SaveState(saved: seq<ImageRecord>, records: map<Id, ImageRecord>, failed: bool)

  /** The loop over `req.files`: save each document in turn; the first
      `save()` that throws ends the loop. */
  function SaveFold(records: map<Id, ImageRecord>, userId: Id, fs: seq<UploadedFile>, envs: seq<SaveEnv>, now: int): SaveState
    requires |fs| == |envs|
    decreases |fs|
  {
    if fs == [] then SaveState([], records, false)
    else
      var prev := SaveFold(records, userId, fs[..|fs| - 1], envs[..|envs| - 1], now);
      if prev.failed then prev
      else match Saved(prev.records, userId, fs[|fs| - 1], envs[|envs| - 1], now)
        case Some(r) => SaveState(prev.saved + [r], prev.records[r.id := r], false)
        case None => prev.(failed := true)
  }

  /** The collection after inserting the given documents in order. */
  function Inserted(records: map<Id, ImageRecord>, rs: seq<ImageRecord>): map<Id, ImageRecord>
    decreases |rs|
  {
    if rs == [] then records else Inserted(records, rs[..|rs| - 1])[rs[|rs| - 1].id := rs[|rs| - 1]]
  }

  /** The saved documents are those of the leading files, in order, and the
      loop stopped early exactly when a save failed. */
  lemma {:induction false} SaveFoldSaved(records: map<Id, ImageRecord>, userId: Id, fs: seq<UploadedFile>, envs: seq<SaveEnv>, now: int)
    requires |fs| == |envs|
    ensures var st := SaveFold(records, userId, fs, envs, now);
      |st.saved| <= |fs|
      && st.saved == Documents(userId, fs[..|st.saved|], envs[..|st.saved|], now)
      && (st.failed <==> |st.saved| < |fs|)
    decreases |fs|
  {
    if fs != [] {
      var n := |fs| - 1;
      var fs', envs' := fs[..n], envs[..n];
      SaveFoldSaved(records, userId, fs', envs', now);
      var prev := SaveFold(records, userId, fs', envs', now);
      var k := |prev.saved|;
      assert fs'[..k] == fs[..k] && envs'[..k] == envs[..k];
      if !prev.failed {
        assert fs[..n + 1] == fs && envs[..n + 1] == envs;
      }
    }
  }

  /** Every saved document stays in the collection, inserted in order. */
  lemma {:induction false} SaveFoldRecords(records: map<Id, ImageRecord>, userId: Id, fs: seq<UploadedFile>, envs: seq<SaveEnv>, now: int)
    requires |fs| == |envs|
    ensures var st := SaveFold(records, userId, fs, envs, now);
      st.records == Inserted(records, st.saved)
    decreases |fs|
  {
    if fs != [] {
      var n := |fs| - 1;
      SaveFoldRecords(records, userId, fs[..n], envs[..n], now);
      var prev := SaveFold(records, userId, fs[..n], envs[..n], now);
      if !prev.failed {
        var r := Saved(prev.records, userId, fs[n], envs[n], now);
        if r.Some? {
          var saved := prev.saved + [r.value];
          assert saved[..|saved| - 1] == prev.saved;
          assert Inserted(records, saved) == Inserted(records, prev.saved)[r.value.id := r.value];
        }
      }
    }
  }

  /** A failure comes from the first file not saved; nothing after it is
      attempted. */
  lemma {:induction false} SaveFoldFailure(records: map<Id, ImageRecord>, userId: Id, fs: seq<UploadedFile>, envs: seq<SaveEnv>, now: int)
    requires |fs| == |envs|
    ensures var st := SaveFold(records, userId, fs, envs, now);
      st.failed ==> |st.saved| < |fs| && Saved(st.records, userId, fs[|st.saved|], envs[|st.saved|], now).None?
    decreases |fs|
  {
    if fs != [] {
      var n := |fs| - 1;
      SaveFoldFailure(records, userId, fs[..n], envs[..n], now);
      SaveFoldSaved(records, userId, fs[..n], envs[..n], now);
    }
  }

  datatype RouteUploadResponse =
    | RouteUploadRejected(status: int, message: string)
    | RouteUploaded(message: string, images: seq<ImageRecord>)

  const RouteNoImages := RouteUploadRejected(400, "No images uploaded")
  const RouteUploadFailed := RouteUploadRejected(500, "Failed to upload images")

  /** The route's upload handler. Nothing is removed from disk on any path. */
  method RouteUploadImages(db: Store, userId: Id, files: Option<seq<UploadedFile>>, envs: seq<SaveEnv>, now: int)
    returns (resp: RouteUploadResponse)
    requires db.Valid()
    requires files.Some? ==> |envs| == |files.value|
    modifies db`records
    ensures db.Valid() && db.files == old(db.files)
    ensures files.None? || files.value == [] ==> resp == RouteNoImages && db.records == old(db.records)
    ensures files.Some? && files.value != [] ==>
      var st := SaveFold(old(db.records), userId, files.value, envs, now);
      db.records == st.records
      && resp == if st.failed then RouteUploadFailed else RouteUploaded("Images uploaded successfully", st.saved)
  {
    if files.None? || files.value == [] {
      return RouteNoImages;
    }
    var fs := files.value;
    var uploaded: seq<ImageRecord> := [];
    var i := 0;
    while i < |fs|
      invariant 0 <= i <= |fs|
      invariant db.Valid()
      invariant SaveFold(old(db.records), userId, fs[..i], envs[..i], now) == SaveState(uploaded, db.records, false)
    {
      assert fs[..i + 1][..i] == fs[..i] && envs[..i + 1][..i] == envs[..i];
      var f, env := fs[i], envs[i];
      var built := NewImage(env.newId, ImageFields(Some(userId), Some(f.filename), Some(f.originalname), Some(f.path),
                                                   Some(f.size), Some(f.mimetype), None), now);
      BuildsDocument(userId, f, env, now);
      if built.Err? || env.saveThrows || env.newId in db.records {
        SaveFoldStaysFailed(old(db.records), userId, fs, envs, now, i + 1);
        return RouteUploadFailed;
      }
      db.records := db.records[env.newId := built.value];
      uploaded := uploaded + [built.value];
      i := i + 1;
    }
    assert fs[..|fs|] == fs && envs[..|envs|] == envs;
    resp := RouteUploaded("Images uploaded successfully", uploaded);
  }

  /** Once a save has failed, the later files change nothing. */
  lemma {:induction false} SaveFoldStaysFailed(records: map<Id, ImageRecord>, userId: Id, fs: seq<UploadedFile>, envs: seq<SaveEnv>,
                                              now: int, j: nat)
    requires |fs| == |envs| && j <= |fs|
    requires SaveFold(records, userId, fs[..j], envs[..j], now).failed
    ensures SaveFold(records, userId, fs, envs, now) == SaveFold(records, userId, fs[..j], envs[..j], now)
    decreases |fs| - j
  {
    if j < |fs| {
      var n := |fs| - 1;
      assert fs[..n][..j] == fs[..j] && envs[..n][..j] == envs[..j];
      SaveFoldStaysFailed(records, userId, fs[..n], envs[..n], now, j);
    } else {
      assert fs[..j] == fs && envs[..j] == envs;
    }
  }

  // ---------------------------------------------------------------------
  // POST /detect-faces

  datatype RouteItem =
    | RouteDetected(imageId: Id, filename: string, results: DetectorOutput)
    | RouteFailed(imageId: Id, filename: string, error: string)

  /** The entries so far, the collection, and whether an exception reached
      the outer `catch` (a `findOne` that throws). */
  datatype RouteDetectState = RouteDetectState(results: seq<RouteItem>, records: map<Id, ImageRecord>, aborted: bool)

  /** The document after the route assigns the detector output as it came
      (no processing time of its own), `processed` and `processedAt`. */
  function RouteProcessed(r: ImageRecord, out: DetectorOutput, now: int): ImageRecord {
    r.(results := StoreResults(out), processed := true, processedAt := Some(now))
  }

  /** One iteration: an id the caller does not own is skipped; no file check
      is made; a rejection or a failed save becomes an error entry. */
  function RouteStep(schema: LandmarkPath, st: RouteDetectState, userId: Id, id: Id, env: ItemEnv): RouteDetectState {
    if st.aborted then st
    else if env.findThrows then st.(aborted := true)
    else if !Owned(st.records, id, userId) then st
    else
      var image := st.records[id];
      match env.detector
      case Rejected => st.(results := st.results + [RouteFailed(id, image.filename, "Face detection failed")])
      case Resolved(out) =>
        var updated := RouteProcessed(image, out, env.now);
        if env.saveThrows || !RecordValid(schema, updated)
        then st.(results := st.results + [RouteFailed(id, image.filename, "Face detection failed")])
        else RouteDetectState(st.results + [RouteDetected(id, image.filename, out)], st.records[id := updated], false)
  }

  function RouteBatch(schema: LandmarkPath, records: map<Id, ImageRecord>, userId: Id, ids: seq<Id>, envs: seq<ItemEnv>): RouteDetectState
    requires |ids| == |envs|
    decreases |ids|
  {
    if ids == [] then RouteDetectState([], records, false)
    else RouteStep(schema, RouteBatch(schema, records, userId, ids[..|ids| - 1], envs[..|envs| - 1]), userId, ids[|ids| - 1], envs[|envs| - 1])
  }

  /** The ids the caller owns, in order. */
  function OwnedIds(records: map<Id, ImageRecord>, userId: Id, ids: seq<Id>): (r: seq<Id>)
    ensures |r| <= |ids|
    decreases |ids|
  {
    if ids == [] then []
    else OwnedIds(records, userId, ids[..|ids| - 1]) + (if Owned(records, ids[|ids| - 1], userId) then [ids[|ids| - 1]] else [])
  }

  function ItemIds(rs: seq<RouteItem>): (r: seq<Id>)
    ensures |r| == |rs|
    ensures forall i :: 0 <= i < |rs| ==> r[i] == rs[i].imageId
  {
    if rs == [] then [] else [rs[0].imageId] + ItemIds(rs[1..])
  }

  lemma RouteStepKeepsIdentity(schema: LandmarkPath, st: RouteDetectState, userId: Id, id: Id, env: ItemEnv)
    ensures SameIdentity(st.records, RouteStep(schema, st, userId, id, env).records)
  {
  }

  lemma {:induction false} RouteBatchKeepsIdentity(schema: LandmarkPath, records: map<Id, ImageRecord>, userId: Id, ids: seq<Id>, envs: seq<ItemEnv>)
    requires |ids| == |envs|
    ensures SameIdentity(records, RouteBatch(schema, records, userId, ids, envs).records)
    decreases |ids|
  {
    if ids != [] {
      var n := |ids| - 1;
      RouteBatchKeepsIdentity(schema, records, userId, ids[..n], envs[..n]);
      var prev := RouteBatch(schema, records, userId, ids[..n], envs[..n]);
      RouteStepKeepsIdentity(schema, prev, userId, ids[n], envs[n]);
      SameIdentityTrans(records, prev.records, RouteBatch(schema, records, userId, ids, envs).records);
    }
  }

  lemma OwnedByIdentity(a: map<Id, ImageRecord>, b: map<Id, ImageRecord>, id: Id, userId: Id)
    requires SameIdentity(a, b)
    ensures Owned(a, id, userId) <==> Owned(b, id, userId)
  {
    if id in a {
      assert Identity(a[id]).userId == a[id].userId;
      assert Identity(b[id]).userId == b[id].userId;
    }
  }

  /** Unless the request was aborted, the entries are one per owned id, in
      the order of `imageIds`; ids the caller does not own leave no trace. */
  lemma {:induction false} RouteBatchEntries(schema: LandmarkPath, records: map<Id, ImageRecord>, userId: Id, ids: seq<Id>, envs: seq<ItemEnv>)
    requires |ids| == |envs|
    ensures var st := RouteBatch(schema, records, userId, ids, envs);
      !st.aborted ==> ItemIds(st.results) == OwnedIds(records, userId, ids)
    decreases |ids|
  {
    if ids != [] {
      var n := |ids| - 1;
      RouteBatchEntries(schema, records, userId, ids[..n], envs[..n]);
      var prev := RouteBatch(schema, records, userId, ids[..n], envs[..n]);
      RouteBatchKeepsIdentity(schema, records, userId, ids[..n], envs[..n]);
      OwnedByIdentity(records, prev.records, ids[n], userId);
      var st := RouteBatch(schema, records, userId, ids, envs);
      if !st.aborted {
        assert !prev.aborted;
        if Owned(prev.records, ids[n], userId) {
          assert |st.results| == |prev.results| + 1 && st.results[..|prev.results|] == prev.results;
          assert ItemIds(st.results) == ItemIds(prev.results) + [ids[n]];
        } else {
          assert st.results == prev.results;
        }
      }
    }
  }

  /** Entries can be fewer than ids: an id nobody owns gives none. */
  lemma RouteResultsShorter(schema: LandmarkPath, records: map<Id, ImageRecord>, userId: Id, ids: seq<Id>, envs: seq<ItemEnv>)
    requires |ids| == |envs|
    ensures var st := RouteBatch(schema, records, userId, ids, envs);
      !st.aborted ==> |st.results| <= |ids|
  {
    RouteBatchEntries(schema, records, userId, ids, envs);
  }

  /** For an owned id whose detection resolves and saves, the route stores
      the output as it came, with no processing time of its own and without
      looking at the disk. */
  lemma RouteStepStoresOutput(schema: LandmarkPath, st: RouteDetectState, userId: Id, id: Id, env: ItemEnv, out: DetectorOutput)
    requires !st.aborted && !env.findThrows && Owned(st.records, id, userId)
    requires env.detector == Resolved(out) && !env.saveThrows
    requires RecordValid(schema, RouteProcessed(st.records[id], out, env.now))
    ensures var next := RouteStep(schema, st, userId, id, env);
      next.records == st.records[id := RouteProcessed(st.records[id], out, env.now)]
      && next.records[id].results.processingTime == out.processingTime
      && next.results == st.results + [RouteDetected(id, st.records[id].filename, out)]
  {
  }

  /** A step never writes to the collection unless it appends a success. */
  lemma RouteStepWritesOnlyOnSuccess(schema: LandmarkPath, st: RouteDetectState, userId: Id, id: Id, env: ItemEnv)
    ensures var next := RouteStep(schema, st, userId, id, env);
      next.records == st.records
      || (|next.results| == |st.results| + 1 && next.results[|st.results|].RouteDetected?)
  {
  }

  /** This copy also takes `detectFaces` off the service object, so every
      call rejects: every entry is an error and nothing is processed. */
  lemma {:induction false} RouteAsWrittenNothingProcessed(schema: LandmarkPath, records: map<Id, ImageRecord>, userId: Id, ids: seq<Id>,
                                                         envs: seq<ItemEnv>, outs: seq<DetectorOutput>)
    requires |ids| == |envs| == |outs|
    requires forall i :: 0 <= i < |envs| ==> envs[i].detector == CallDetector(false, outs[i])
    ensures var st := RouteBatch(schema, records, userId, ids, envs);
      st.records == records && forall i :: 0 <= i < |st.results| ==> st.results[i].RouteFailed?
    decreases |ids|
  {
    if ids != [] {
      var n := |ids| - 1;
      assert forall i :: 0 <= i < n ==> envs[..n][i] == envs[i];
      RouteAsWrittenNothingProcessed(schema, records, userId, ids[..n], envs[..n], outs[..n]);
    }
  }

  /** Called on the service object, the detector resolves; then, with the
      landmark path declared as sub-documents and no lookup or save throwing,
      the route is never aborted, every entry is a success, there is one per
      owned id in the order of `imageIds`, and the collection stays valid. */
  lemma {:induction false} CorrectedRouteAllDetected(records: map<Id, ImageRecord>, userId: Id, ids: seq<Id>,
                                                    envs: seq<ItemEnv>, outs: seq<DetectorOutput>)
    requires |ids| == |envs| == |outs|
    requires forall i :: 0 <= i < |envs| ==>
      envs[i].detector == CallDetector(true, outs[i]) && !envs[i].findThrows && !envs[i].saveThrows
    requires forall i, k :: 0 <= i < |outs| && 0 <= k < |outs[i].faces| ==> 0 <= outs[i].faces[k].confidence <= 100
    requires forall id :: id in records ==> RecordValid(LandmarkDocuments, records[id])
    ensures var st := RouteBatch(LandmarkDocuments, records, userId, ids, envs);
      !st.aborted && (forall i :: 0 <= i < |st.results| ==> st.results[i].RouteDetected?)
      && ItemIds(st.results) == OwnedIds(records, userId, ids)
      && forall id :: id in st.records ==> RecordValid(LandmarkDocuments, st.records[id])
    decreases |ids|
  {
    RouteBatchEntries(LandmarkDocuments, records, userId, ids, envs);
    if ids != [] {
      var n := |ids| - 1;
      assert forall i :: 0 <= i < n ==> envs[..n][i] == envs[i] && outs[..n][i] == outs[i];
      CorrectedRouteAllDetected(records, userId, ids[..n], envs[..n], outs[..n]);
      CorrectedRouteStep(RouteBatch(LandmarkDocuments, records, userId, ids[..n], envs[..n]), userId, ids[n], envs[n], outs[n]);
    }
  }

  /** One step of the corrected route keeps it unaborted, with only
      successes and a valid collection. */
  lemma CorrectedRouteStep(st: RouteDetectState, userId: Id, id: Id, env: ItemEnv, out: DetectorOutput)
    requires !st.aborted && forall i :: 0 <= i < |st.results| ==> st.results[i].RouteDetected?
    requires forall x :: x in st.records ==> RecordValid(LandmarkDocuments, st.records[x])
    requires env.detector == CallDetector(true, out) && !env.findThrows && !env.saveThrows
    requires forall k :: 0 <= k < |out.faces| ==> 0 <= out.faces[k].confidence <= 100
    ensures var next := RouteStep(LandmarkDocuments, st, userId, id, env);
      !next.aborted && (forall i :: 0 <= i < |next.results| ==> next.results[i].RouteDetected?)
      && forall x :: x in next.records ==> RecordValid(LandmarkDocuments, next.records[x])
  {
    if Owned(st.records, id, userId) {
      ProcessedRecordValid(LandmarkDocuments, st.records[id], out, env.now);
    }
  }

  datatype RouteDetectResponse =
    | RouteDetectRejected(status: int, message: string)
    | RouteDetectCompleted(message: string, results: seq<RouteItem>)

  const RouteNoIds := RouteDetectRejected(400, "No image IDs provided")
  const RouteDetectFailed := RouteDetectRejected(500, "Face detection failed")

  /** The route's detection handler. A `findOne` that throws answers 500,
      while the records already processed stay written. `schema` is the
      reading of the landmark path, as in `ImageController.DetectFaces`. */
  method RouteDetectFaces(schema: LandmarkPath, db: Store, userId: Id, imageIds: Option<seq<Id>>, envs: seq<ItemEnv>)
    returns (resp: RouteDetectResponse)
    requires db.Valid()
    requires imageIds.Some? ==> |envs| == |imageIds.value|
    modifies db`records
    ensures db.Valid()
    ensures imageIds.None? || imageIds.value == [] ==> resp == RouteNoIds && db.records == old(db.records)
    ensures imageIds.Some? && imageIds.value != [] ==>
      var st := RouteBatch(schema, old(db.records), userId, imageIds.value, envs);
      db.records == st.records
      && resp == if st.aborted then RouteDetectFailed else RouteDetectCompleted("Face detection completed", st.results)
  {
    if imageIds.None? || imageIds.value == [] {
      return RouteNoIds;
    }
    var ids := imageIds.value;
    var results: seq<RouteItem> := [];
    var i := 0;
    while i < |ids|
      invariant 0 <= i <= |ids|
      invariant db.Valid()
      invariant RouteBatch(schema, old(db.records), userId, ids[..i], envs[..i]) == RouteDetectState(results, db.records, false)
    {
      assert ids[..i + 1][..i] == ids[..i] && envs[..i + 1][..i] == envs[..i];
      var id, env := ids[i], envs[i];
      if env.findThrows {
        RouteBatchStaysAborted(schema, old(db.records), userId, ids, envs, i + 1);
        return RouteDetectFailed;
      }
      if id in db.records && db.records[id].userId == userId {
        var image := db.records[id];
        match env.detector
        case Rejected =>
          results := results + [RouteFailed(id, image.filename, "Face detection failed")];
        case Resolved(out) =>
          var updated := image.(results := StoreResults(out), processed := true, processedAt := Some(env.now));
          if env.saveThrows || !RecordValid(schema, updated) {
            results := results + [RouteFailed(id, image.filename, "Face detection failed")];
          } else {
            db.records := db.records[id := updated];
            results := results + [RouteDetected(id, image.filename, out)];
          }
      }
      i := i + 1;
    }
    assert ids[..|ids|] == ids && envs[..|envs|] == envs;
    resp := RouteDetectCompleted("Face detection completed", results);
  }

  lemma {:induction false} RouteBatchStaysAborted(schema: LandmarkPath, records: map<Id, ImageRecord>, userId: Id, ids: seq<Id>, envs: seq<ItemEnv>, j: nat)
    requires |ids| == |envs| && j <= |ids|
    requires RouteBatch(schema, records, userId, ids[..j], envs[..j]).aborted
    ensures RouteBatch(schema, records, userId, ids, envs) == RouteBatch(schema, records, userId, ids[..j], envs[..j])
    decreases |ids| - j
  {
    if j < |ids| {
      var n := |ids| - 1;
      assert ids[..n][..j] == ids[..j] && envs[..n][..j] == envs[..j];
      RouteBatchStaysAborted(schema, records, userId, ids[..n], envs[..n], j);
    } else {
      assert ids[..j] == ids && envs[..j] == envs;
    }
  }

  // ---------------------------------------------------------------------
  // DELETE /:id

  /** The route's delete: the record is removed first, so an unlink that
      throws answers 500 with the record already gone. */
  method RouteDeleteImage(db: Store, userId: Id, imageId: Id, findThrows: bool) returns (resp: DeleteResponse)
    requires db.Valid()
    modifies db`records, db`files
    ensures db.Valid()
    ensures findThrows ==>
      resp == DeleteResponse(500, "Failed to delete image") && db.records == old(db.records) && db.files == old(db.files)
    ensures !findThrows && !Owned(old(db.records), imageId, userId) ==>
      resp == DeleteResponse(404, "Image not found") && db.records == old(db.records) && db.files == old(db.files)
    ensures !findThrows && Owned(old(db.records), imageId, userId) ==>
      var p := old(db.records)[imageId].path;
      db.records == old(db.records) - {imageId}
      && (if p in old(db.files) && p in db.locked
          then resp == DeleteResponse(500, "Failed to delete image") && db.files == old(db.files)
          else resp == DeleteResponse(200, "Image deleted successfully") && db.files == old(db.files) - {p})
  {
    if findThrows {
      return DeleteResponse(500, "Failed to delete image");
    }
    if !(imageId in db.records && db.records[imageId].userId == userId) {
      return DeleteResponse(404, "Image not found");
    }
    var image := db.records[imageId];
    db.records := db.records - {imageId};
    if image.path in db.files {
      if image.path in db.locked {
        return DeleteResponse(500, "Failed to delete image");
      }
      db.files := db.files - {image.path};
    }
    resp := DeleteResponse(200, "Image deleted successfully");
  }
}
