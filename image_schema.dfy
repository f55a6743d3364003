/** The Mongoose `Image` model: required paths, defaults, the confidence range
    and landmark path of a face sub-document, and the five declared
    `faceDetectionResults` paths (strict mode drops every other key of a
    stored detection object). */
module ImageSchema {
  import opened Wrappers
  import opened Faces

  type Id = string

  /** The nested `faceDetectionResults` object. `faces` is an array path and so
      defaults to []; the other four are unset until a detection is stored. */
  datatype StoredResults = StoredResults(
    faces: seq<Face>,
    faceCount: Option<int>,
    processingTime: Option<int>,
    imageWidth: Option<int>,
    imageHeight: Option<int>)

  const NoResults := StoredResults([], None, None, None, None)

  datatype ImageRecord = ImageRecord(
    id: Id,
    userId: Id,
    filename: string,
    originalName: string,
    path: string,
    size: int,
    mimetype: string,
    uploadedAt: int,
    processed: bool,
    processedAt: Option<int>,
    results: StoredResults)

  /** The values handed to `new Image({...})`; an absent path is `None`. */
  datatype ImageFields = ImageFields(
    userId: Option<Id>,
    filename: Option<string>,
    originalName: Option<string>,
    path: Option<string>,
    size: Option<int>,
    mimetype: Option<string>,
    uploadedAt: Option<int>)

  /** Mongoose's `required` for a String path: present and not ''. */
  predicate RequiredString(v: Option<string>) { v.Some? && v.value != "" }

  /** The required paths that fail validation, in schema order. */
  function MissingPaths(f: ImageFields): seq<string> {
    (if RequiredString(f.userId) then [] else ["userId"])
    + (if RequiredString(f.filename) then [] else ["filename"])
    + (if RequiredString(f.originalName) then [] else ["originalName"])
    + (if RequiredString(f.path) then [] else ["path"])
    + (if f.size.Some? then [] else ["size"])
    + (if RequiredString(f.mimetype) then [] else ["mimetype"])
  }

  /** The schema's bounds on a face's confidence, 0 to 1, here in hundredths
      (backend/models/Image.js:10-14). */
  predicate FaceValid(f: Face) { 0 <= f.confidence <= 100 }

  /** How Mongoose reads a face's `landmarks` path. Inside an array, an object
      with a `type` key is that SchemaType with options, so the declared
      `[{ type: String, x: Number, y: Number }]` is an array of strings whose
      `x` and `y` are ignored options. `{ type: { type: String }, x: Number,
      y: Number }` would declare the array of landmark sub-documents meant. */
  datatype LandmarkPath = StringArray | LandmarkDocuments

  /** The reading of the schema as declared. */
  const DeclaredLandmarks := StringArray

  /** Whether a face's landmarks cast to the path: a string array casts each
      element to a string, which refuses a plain object, so only an empty
      landmark list casts. */
  predicate LandmarksCast(schema: LandmarkPath, f: Face) {
    schema == LandmarkDocuments || f.landmarks == []
  }

  /** What `save()` validates on a record, under a reading of the landmark path. */
  predicate RecordValid(schema: LandmarkPath, r: ImageRecord) {
    r.userId != "" && r.filename != "" && r.originalName != "" && r.path != "" && r.mimetype != ""
    && forall i :: 0 <= i < |r.results.faces| ==>
      FaceValid(r.results.faces[i]) && LandmarksCast(schema, r.results.faces[i])
  }

  /** Builds and validates a new document: the required paths must be present,
      `uploadedAt` defaults to the creation time, `processed` to false,
      `processedAt` stays unset and no detection results are stored. */
  function NewImage(id: Id, f: ImageFields, now: int): (r: Result<ImageRecord, seq<string>>)
    ensures r.Ok? <==> MissingPaths(f) == []
    ensures r.Err? ==> r.error == MissingPaths(f)
    ensures r.Ok? ==> (RecordValid(DeclaredLandmarks, r.value) && RecordValid(LandmarkDocuments, r.value) && r.value.id == id
      && !r.value.processed && r.value.processedAt == None && r.value.results == NoResults
      && r.value.uploadedAt == (if f.uploadedAt.Some? then f.uploadedAt.value else now)
      && Some(r.value.userId) == f.userId && Some(r.value.filename) == f.filename
      && Some(r.value.originalName) == f.originalName && Some(r.value.path) == f.path
      && Some(r.value.size) == f.size && Some(r.value.mimetype) == f.mimetype)
  {
    if MissingPaths(f) != [] then Err(MissingPaths(f))
    else Ok(ImageRecord(id, f.userId.value, f.filename.value, f.originalName.value, f.path.value,
                        f.size.value, f.mimetype.value, f.uploadedAt.GetOr(now), false, None, NoResults))
  }

  /** Assigning a detection object to `faceDetectionResults` keeps only the
      declared paths. */
  function StoreResults(out: DetectorOutput): (s: StoredResults)
    ensures s.faces == out.faces && s.faceCount == Some(out.faceCount)
    ensures s.processingTime == out.processingTime
    ensures s.imageWidth == out.imageWidth && s.imageHeight == out.imageHeight
  {
    StoredResults(out.faces, Some(out.faceCount), out.processingTime, out.imageWidth, out.imageHeight)
  }

  /** Two detection objects are stored identically exactly when they agree on
      the five declared paths: the aggregate `confidence`, `apiProvider` and
      `error` never reach the database. */
  lemma StoreResultsKeepsDeclaredPaths(a: DetectorOutput, b: DetectorOutput)
    ensures StoreResults(a) == StoreResults(b) <==>
      (a.faces == b.faces && a.faceCount == b.faceCount && a.processingTime == b.processingTime
       && a.imageWidth == b.imageWidth && a.imageHeight == b.imageHeight)
  {
  }

  /** A record stays valid when detection results are written into it exactly
      when every new face has its confidence in range and landmarks that cast. */
  lemma ProcessedRecordValid(schema: LandmarkPath, r: ImageRecord, out: DetectorOutput, at: int)
    requires RecordValid(schema, r)
    ensures RecordValid(schema, r.(results := StoreResults(out), processed := true, processedAt := Some(at)))
      <==> forall i :: 0 <= i < |out.faces| ==> FaceValid(out.faces[i]) && LandmarksCast(schema, out.faces[i])
  {
  }

  /** As declared, a result holding a face with landmarks (every mock face has
      four) fails validation, so `save()` rejects it. */
  lemma AsWrittenLandmarksRefused(r: ImageRecord, out: DetectorOutput, at: int, i: nat)
    requires i < |out.faces| && out.faces[i].landmarks != []
    ensures !RecordValid(DeclaredLandmarks, r.(results := StoreResults(out), processed := true, processedAt := Some(at)))
  {
    var u := r.(results := StoreResults(out), processed := true, processedAt := Some(at));
    assert u.results.faces[i] == out.faces[i];
  }

  /** With the landmark path declared as sub-documents, a valid record stays
      valid with any result whose confidences are in range, with or without
      landmarks. */
  lemma CorrectedLandmarksAccepted(r: ImageRecord, out: DetectorOutput, at: int)
    requires RecordValid(LandmarkDocuments, r)
    requires forall i :: 0 <= i < |out.faces| ==> FaceValid(out.faces[i])
    ensures RecordValid(LandmarkDocuments, r.(results := StoreResults(out), processed := true, processedAt := Some(at)))
  {
    ProcessedRecordValid(LandmarkDocuments, r, out, at);
  }
}
