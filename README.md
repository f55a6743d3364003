# TraceLens in Dafny

TraceLens is a demo web application. It has an Express/Mongoose back end and a React front end. Users log in with an email, a password and a one-time code (OTP) sent to a mobile number. They can then upload images and have faces marked on them, by a mock detector that draws random boxes. This project models the parts of TraceLens that carry decisions:

- the image record lifecycle: upload, the batch face-detection loop, listing and deletion, in the controller and in the second, differing copy of the routes;
- the mock detector and its never-failing wrapper;
- the upload middleware and the request validators;
- the in-memory Redis stand-in with lazy expiry, the OTP service, and the login, refresh and OTP endpoints, again in both copies;
- the user schema and the SMS service's number formatting and provider choice;
- on the front end: the API layer, the image selection list, the detection panel, the dashboard list, the four login forms, the translation provider, and the analysis page's classifiers and chat history.

Each source file is one Dafny module. The modelling style follows the source:

- **Pure code** (schemas, formatters, classifiers) is functions and datatypes.
- **State the source changes in place** is a class whose methods state the whole new state. This covers the image and user collections, the Redis tables, the OTP store, the SMS service and the React components' state.
- **Loops over a batch** are methods whose invariant ties the state to a left fold over the part already processed. The properties of the loop are lemmas about that fold.

Some things are parameters rather than behaviour:

- the clock, random draws, the detector's outcome and database failures;
- bcrypt, jwt, `isEmail` and the `URL` constructor;
- how an API call settles.

Confidences are integer hundredths.

Modules and the files they model:

| module | file |
|---|---|
| `Storage`, `Faces`, `ImageSchema` | backend/models/Image.js and the state the image handlers share |
| `ImageController` | backend/controllers/imageController.js |
| `ImageRoutes` | backend/routes/images.js |
| `Vision` | backend/services/visionService.js |
| `Upload` | backend/middleware/upload.js |
| `Validation` | backend/middleware/validation.js |
| `Redis` | backend/config/redis.js |
| `Otp` | backend/services/otpService.js |
| `AuthController` | backend/controllers/authController.js |
| `AuthRoutes` | backend/routes/auth.js |
| `UserSchema` | backend/models/User.js |
| `Sms` | backend/services/smsService.js |
| `Api` | frontend/src/services/api.js |
| `ImageUpload` | frontend/src/components/ImageUpload/ImageUpload.jsx |
| `FaceDetectionPanel`, `FrontImages` | frontend/src/components/FaceDetection/FaceDetection.jsx |
| `Dashboard` | frontend/src/components/Dashboard/Dashboard.jsx |
| `LoginForm` | frontend/src/components/Login/Login.jsx |
| `Language` | frontend/src/context/LanguageContext.jsx |
| `MainApp` | frontend/src/main.jsx |
| `TraceForm` | trace_lens/trace.js |
| `AnalysisPage` | script.js |
| `InputMarks` | l.js |
| `EmailPatterns` | the email patterns of Login.jsx, l.js and trace.js |
| `Strings`, `Json`, `Wrappers` | JavaScript string built-ins, parsed request bodies, `Option` and `Result` |

## Model

| member | source | states |
|---|---|---|
| ImageController.BuildsDocument | backend/controllers/imageController.js:26-34 | the document built for an uploaded file carries the uploader, the file's name, original name, path, size and type and the upload time, unprocessed with no results, and it fails validation exactly when a required path is missing |
| ImageController.UploadImages | backend/controllers/imageController.js:10-70 | a missing or empty `req.files` answers 400 'No images uploaded' and changes nothing; otherwise the collection and the disk end as the file-by-file fold leaves them, and the answer is 500 'Internal server error' when an unlink threw out of the catch, 500 'Failed to process uploaded images' when nothing was saved, and 201 with the saved documents otherwise; the store stays valid |
| ImageController.UploadFoldStaysCrashed | backend/controllers/imageController.js:41-69 | once an exception escapes the per-file catch, the remaining files change nothing |
| ImageController.UploadAddsOnlySaved | backend/controllers/imageController.js:23-47 | existing documents are never changed, every saved document is new, unprocessed and owned by the uploader, and the collection grows by exactly the saved documents |
| ImageController.UploadRemovesOnlyFailed | backend/controllers/imageController.js:41-47 | the only files that leave the disk are paths of uploaded files whose save failed, and only when they existed and could be unlinked |
| ImageController.UploadAllSavedKeys | backend/controllers/imageController.js:23-48 | when every document validates and has a fresh, distinct id, the loop never crashes, removes no file and adds only the new ids |
| ImageController.UploadAllSaved | backend/controllers/imageController.js:23-61 | when every document validates and has a fresh, distinct id, the saved list is the list of documents built for the files, in file order, and the disk is unchanged |
| ImageController.UploadAllSavedInOrder | backend/controllers/imageController.js:19-61 | in that case the response holds one document per file, and its n-th document is the n-th file's |
| ImageController.CountsPartition | backend/controllers/imageController.js:159-160 | when every error text is non-empty, `processed` (entries without error) plus `failed` (entries with one) is the number of entries |
| ImageController.DetectFaces | backend/controllers/imageController.js:73-161 | a validation error answers 400 'Validation error'; a missing, non-array or empty `imageIds` answers 400 'No image IDs provided'; in both cases nothing is written; otherwise the entries and the collection are those of the loop over the ids under the given reading of the landmark path, `processed` and `failed` count the entries without and with an error, and they sum to the number of ids |
| ImageController.DetectOne | backend/controllers/imageController.js:97-153 | one pass of the loop body pushes the entry and writes the record exactly as one step of the loop specification says |
| ImageController.StepByIdentity | backend/controllers/imageController.js:97-153 | an iteration's entry depends only on the parts of the records the loop never writes, so earlier iterations cannot change it |
| ImageController.StepWrites | backend/controllers/imageController.js:123-152 | a successful iteration stores exactly the processed record (detector output, measured processing time, processed, processedAt) in one write; a failing one writes nothing |
| ImageController.BatchKeepsIdentity | backend/controllers/imageController.js:97-153 | the loop only changes the detection results, `processed` and `processedAt` of records; no record is added or removed |
| ImageController.BatchResults | backend/controllers/imageController.js:97-153 | every id gets exactly one entry, in input order, and that entry is what the id alone gives against the collection before the loop: an exception or failure for one id does not stop or affect the others |
| ImageController.StepCases | backend/controllers/imageController.js:98-152 | an entry is 'Image not found or access denied' exactly when the record is missing or belongs to another user, 'Image file not found on disk' exactly when its file is gone, a success exactly when the detector resolved and the save succeeded, which includes the processed document validating (then carrying the filename, original name and stored results with the controller's processing time), and otherwise 'Face detection processing failed' |
| ImageController.BatchFinalRecords | backend/controllers/imageController.js:123-134 | after the loop a record without a successful entry is unchanged, and any other holds what its last successful entry stored |
| ImageController.BatchCounts | backend/controllers/imageController.js:155-161 | `processed + failed` equals the number of ids |
| ImageController.AsWrittenNothingProcessed | backend/controllers/imageController.js:5-124 | with `detectFaces` taken off the service object, every call rejects, so every id fails and no record is ever written |
| ImageController.CorrectedOwnedOnDiskProcessed | backend/controllers/imageController.js:122-141 | with the detector called on the service and the landmark path declared as sub-documents, every owned record whose file exists and whose save does not throw is processed and stores the detector output with the measured processing time |
| ImageController.AsWrittenLandmarkFacesFail | backend/controllers/imageController.js:122-141 | with the landmark path as declared, even a bound detector cannot get a face with landmarks saved: that image's entry is 'Face detection processing failed' |
| ImageController.QueryForMatches | backend/controllers/imageController.js:179-182 | a record matches the listing query exactly when it is the user's and, if `processed` was given, its flag equals `processed === 'true'` |
| ImageController.PagesIsCeiling | backend/controllers/imageController.js:208 | for a positive limit, `pages` is the least number of pages of `limit` records that holds all `total` records |
| ImageController.PageWithinRange | backend/controllers/imageController.js:189-208 | for page ≥ 1, `skip = (page-1)*limit` is non-negative, and it is below `total` exactly when the page is at most `pages` |
| ImageController.UserImagesListing | backend/controllers/imageController.js:173-210 | `page` and `limit` are the `parseInt` of the query strings, 1 and 20 when absent; the sort key is `sortBy`, 'uploadedAt' by default, descending unless `sortOrder` is given and not 'desc'; `skip` and `pages` are `NaN` whenever an operand is; the total counts exactly the matching records, and only the user's records can match |
| ImageController.QueryNumber | backend/controllers/imageController.js:176-206 | an absent parameter gives its numeric default and a present one its `parseInt` |
| ImageController.ListingOfWrittenPage | backend/controllers/imageController.js:176-206 | page and limit written as decimal numbers are read back as those numbers, and `skip` is `(page-1)*limit` |
| ImageController.ListingParsesLoosely | backend/controllers/imageController.js:176-206 | `?page=2.5` lists page 2, skipping 20 records, and `?limit=x` makes limit, skip and pages `NaN` |
| ImageController.DeleteImage | backend/controllers/imageController.js:254-295 | a throwing lookup answers 500 and a record that is missing or not the user's answers 404, both changing nothing; otherwise the record is removed and its file unlinked, unless the unlink fails, which is only logged, and the answer is 200 |
| ImageController.OwnedAmong | backend/controllers/imageController.js:311-314 | the records found are exactly those whose id is listed and whose owner is the user |
| ImageController.DeleteFiles | backend/controllers/imageController.js:323-334 | the loop unlinks the existing files of the found records; a failed unlink is skipped; `filesDeleted` is the number of files removed and is at most the number of records |
| ImageController.BulkDeleteImages | backend/controllers/imageController.js:298-357 | a missing or empty id list answers 400, a throwing lookup 500 and no owned record 404, each changing nothing; otherwise exactly the owned records are deleted, `deleted` counts them, their unlinkable files are removed, and `filesDeleted` counts those files and is at most `deleted`; a `deleteMany` that throws answers 500 after the files are unlinked and keeps every record |
| ImageRoutes.RouteFileFilter | backend/routes/images.js:28-38 | a file is accepted exactly when one of the four words occurs in its lower-cased extension and in its MIME type as given; every refusal carries 'Only image files (jpeg, jpg, png, webp) are allowed' |
| ImageRoutes.RouteFilterUnanchored | backend/routes/images.js:29-33 | because the pattern is unanchored, any lower-case extension containing `png` with any MIME type containing `png` is accepted |
| ImageRoutes.ExtensionHasPng | backend/routes/images.js:30 | the lower-cased extension of `b.x` still contains `png` when `x` does |
| ImageRoutes.RouteFilterCaseSensitive | backend/routes/images.js:31 | the MIME type is not lower-cased, so a type without lower-case letters is refused even for `photo.png` |
| ImageRoutes.NoOccurrence | backend/routes/images.js:29-31 | a word starting with a lower-case letter does not occur in a text with no lower-case letters |
| ImageRoutes.RouteLimitsAreDefaults | backend/routes/images.js:24-27 | this copy's limits of 5 MB and ten files are the middleware's defaults |
| ImageRoutes.RouteFilename | backend/routes/images.js:16-19 | the stored name starts with the field name and a dash and ends with the original extension, case kept |
| ImageRoutes.SaveFoldSaved | backend/routes/images.js:50-62 | the saved documents are those built from the leading files, in order, and the loop failed exactly when fewer documents were saved than files came in |
| ImageRoutes.SaveFoldRecords | backend/routes/images.js:50-62 | the collection afterwards is the old one with exactly the saved documents inserted in order |
| ImageRoutes.SaveFoldFailure | backend/routes/images.js:60-71 | a failure means the first file not saved is the one whose save threw |
| ImageRoutes.SaveFoldStaysFailed | backend/routes/images.js:60-71 | once a save has thrown, the later files change nothing |
| ImageRoutes.RouteUploadImages | backend/routes/images.js:42-72 | no files answers 400 'No images uploaded' and changes nothing; otherwise the collection ends as the fold leaves it and the answer is 500 'Failed to upload images' when a save threw (earlier documents stay saved) and 'Images uploaded successfully' with the saved documents otherwise; the disk is never touched |
| ImageRoutes.OwnedIds | backend/routes/images.js:85-89 | the ids the caller owns are never more than the ids sent |
| ImageRoutes.ItemIds | backend/routes/images.js:101-112 | the ids of the entries, one per entry in order |
| ImageRoutes.RouteStepKeepsIdentity | backend/routes/images.js:86-113 | one iteration never changes any document's id, owner or file |
| ImageRoutes.RouteBatchKeepsIdentity | backend/routes/images.js:85-114 | the whole loop never changes any document's id, owner or file |
| ImageRoutes.OwnedByIdentity | backend/routes/images.js:86 | ownership is decided by identity alone, so it is the same before and after the loop |
| ImageRoutes.RouteBatchEntries | backend/routes/images.js:85-114 | unless a lookup threw, the entries are one per owned id, in the order sent; ids not owned leave no entry |
| ImageRoutes.RouteResultsShorter | backend/routes/images.js:87-89 | unless a lookup threw, there are never more entries than ids |
| ImageRoutes.RouteStepStoresOutput | backend/routes/images.js:93-105 | for an owned id whose detection and save succeed and whose processed document validates, the document becomes processed with the detector's output as it came and a success entry with its id and filename is appended |
| ImageRoutes.RouteStepWritesOnlyOnSuccess | backend/routes/images.js:91-113 | an iteration writes to the collection only when it appends a success entry |
| ImageRoutes.RouteAsWrittenNothingProcessed | backend/routes/images.js:7-93 | with `detectFaces` taken off the service object every detection throws, so no document is written and every entry is a failure |
| ImageRoutes.RouteBatchStaysAborted | backend/routes/images.js:86-123 | once a lookup has thrown, the later ids change nothing |
| ImageRoutes.RouteDetectFaces | backend/routes/images.js:75-124 | a missing or empty `imageIds` answers 400 'No image IDs provided' and changes nothing; otherwise the collection ends as the loop leaves it under the given reading of the landmark path, and the answer is 500 'Face detection failed' when a lookup threw and 'Face detection completed' with the entries otherwise; the store stays valid |
| ImageRoutes.RouteDeleteImage | backend/routes/images.js:141-163 | a lookup that throws answers 500 and changes nothing; an image the caller does not own answers 404 'Image not found' and changes nothing; otherwise the record is removed first, and the file is unlinked when present, with a failing unlink answering 500 'Failed to delete image' after the record is gone, and 'Image deleted successfully' otherwise |
| ImageRoutes.CorrectedRouteAllDetected | backend/routes/images.js:75-124 | with the detector called on the service object, the landmark path declared as sub-documents and no lookup or save throwing, the route's detection is never aborted, every entry is a success, there is one per owned id in the order given, and the collection stays valid |
| ImageRoutes.CorrectedRouteStep | backend/routes/images.js:85-104 | one iteration of the corrected loop keeps it unaborted, with only successes and every stored document valid |
| Faces.Confidences | backend/services/visionService.js:154-156 | the confidences of the faces, one per face in order |
| Vision.FaceCountFor | backend/services/visionService.js:111-117 | a draw in [0, 1) gives a face count between 0 and 4 |
| Vision.FaceCountBuckets | backend/services/visionService.js:113-117 | each count owns exactly its interval of the draw: below 0.2 no face, then 0.5, 0.8 and 0.95 for one to three, four above |
| Vision.Round | backend/services/visionService.js:141-146 | `Math.round` gives the integer within half a unit of the value, a half rounding up |
| Vision.RoundMonotone | backend/services/visionService.js:141-146 | rounding never reverses an order |
| Vision.Between | backend/services/visionService.js:126-136 | a draw in [0, 1) spread over `[lo, hi]` lands inside that interval |
| Vision.Stretched | backend/services/visionService.js:127 | the face height is between 1.2 and 1.5 times its width |
| Vision.SizeBonus | backend/services/visionService.js:135 | the size bonus of the confidence is never negative |
| Vision.Jittered | backend/services/visionService.js:173-201 | a jittered landmark is at most half the variation away from its center |
| Vision.GeometryBounds | backend/services/visionService.js:122-137 | the face width lies between the two size limits, the first of them positive; the height is 1.2 to 1.5 times the width; the capped confidence is between 0.70 and 0.95 |
| Vision.GeometryInImage | backend/services/visionService.js:124-132 | on an image of at least 40x40 the face keeps the 10-pixel margin on every side, and it is at least 4 wide and 4.8 high |
| Vision.LandmarkShape | backend/services/visionService.js:168-205 | the landmarks are leftEye, rightEye, nose and mouth, in that order |
| Vision.MockFaces | backend/services/visionService.js:122-149 | the loop builds one face per iteration |
| Vision.MockFacesAt | backend/services/visionService.js:139-148 | the face built in iteration `i` is made from the `i`-th draw |
| Vision.MockFaceHasShape | backend/services/visionService.js:122-148 | for draws in [0, 1), a mock face on any image has `x` and `y` at least 0, width and height at most the image's, a confidence between 0.70 and 0.95 and the four landmarks |
| Vision.MockFaceInImage | backend/services/visionService.js:122-205 | on an image of at least 40x40 the rounded box lies inside the image and every jittered landmark lies inside the box |
| Vision.LandmarkColumnsInBox | backend/services/visionService.js:173-201 | every landmark's `x` lies within the rounded box's columns |
| Vision.LandmarkRowsInBox | backend/services/visionService.js:173-201 | every landmark's `y` lies within the rounded box's rows |
| Vision.BoxCanOverhang | backend/services/visionService.js:124-144 | on an image smaller than the margins allow, the clamps do not keep a box inside: on 10x10 with every draw 0 the box starts at x = 10 and is 1 wide |
| Vision.InsertPermutes | backend/services/visionService.js:152 | inserting adds exactly the inserted face |
| Vision.InsertSorted | backend/services/visionService.js:152 | inserting into a list sorted by descending confidence keeps it sorted |
| Vision.InsertProps | backend/services/visionService.js:152 | inserting into a sorted list keeps it sorted and adds exactly that face |
| Vision.SortByConfidenceCorrect | backend/services/visionService.js:152 | the sort orders the faces by descending confidence and is a permutation of them |
| Vision.RoundedMeanNearest | backend/services/visionService.js:154-163 | the aggregate confidence is the hundredth nearest the mean, halves rounding up |
| Vision.SumBounds | backend/services/visionService.js:155 | a sum of values between `lo` and `hi` lies between `n*lo` and `n*hi` |
| Vision.RoundedMeanBounds | backend/services/visionService.js:154-163 | the rounded mean of values between `lo` and `hi` stays between them |
| Vision.MockOutputShape | backend/services/visionService.js:103-166 | a mock result has at most four faces sorted by descending confidence, each with the clamped box, a confidence in [0.70, 0.95] and the four landmarks; on an image of at least 40x40 each box is inside the image and holds its landmarks; the aggregate is 0 with no faces and between 0.70 and 0.95 otherwise |
| Vision.DefaultImageBoxesInside | backend/services/visionService.js:50-166 | on the default 800x600 image every mock box lies inside the image |
| Vision.VisionService.constructor | backend/services/visionService.js:5-42 | the Google path is disabled whatever the credentials and environment |
| Vision.VisionService.MockFaceDetection | backend/services/visionService.js:103-166 | the result has as many faces as the drawn count, built from the real draws, sorted by descending confidence as a permutation of them, with the rounded mean as aggregate and provider 'mock' |
| Vision.VisionService.GoogleVisionDetection | backend/services/visionService.js:207-223 | the placeholder returns the mock result for an 800x600 image |
| Vision.VisionService.DetectFaces | backend/services/visionService.js:44-101 | an exception gives the error record; otherwise the dimensions are the image's when `sharp` reads them and 800x600 when not, the elapsed time and dimensions are added, and the rest is the mock result (at 800x600 when the Google path is on in production) |
| Vision.ErrorOutput | backend/services/visionService.js:86-99 | the error record has no faces and confidence 0, processing time 100, 800x600, provider 'error' and the exception's message |
| ImageSchema.NewImage | backend/models/Image.js:34-70 | a document is built exactly when every required path is present, the error lists the missing paths in schema order, and a built document carries the given values, `processed` false, no results and `uploadedAt` defaulting to now; it validates under either reading of the landmark path |
| ImageSchema.StoreResults | backend/models/Image.js:71-77 | assigning a detection object keeps its faces, count, time and dimensions |
| ImageSchema.StoreResultsKeepsDeclaredPaths | backend/models/Image.js:71-77 | two detection objects are stored alike exactly when they agree on the five declared paths; the provider, aggregate and error are dropped |
| ImageSchema.ProcessedRecordValid | backend/models/Image.js:10-77 | a valid document stays valid after storing results exactly when every face has a confidence between 0 and 1 and landmarks that cast to the landmark path |
| ImageSchema.AsWrittenLandmarksRefused | backend/models/Image.js:15-19 | as declared, the landmark path is an array of strings, so a result that holds a face with landmarks fails validation |
| ImageSchema.CorrectedLandmarksAccepted | backend/models/Image.js:15-19 | with the landmark path declared as sub-documents, any result whose confidences are in range validates, landmarks or not |
| Storage.Store.constructor | backend/models/Image.js:1-93 | the state the handlers share, the Image collection with the upload disk beside it, starts with the given documents, files and directories, each document keyed by its own id |
| Upload.ExtName | backend/middleware/upload.js:38 | the extension is empty or a final `.` segment without another dot, shorter than the name; a name without a dot has none |
| Upload.BaseName | backend/middleware/upload.js:39 | the base is the name with the extension cut off when the name ends with it (and is not just the extension), and the whole name otherwise |
| Upload.Underscored | backend/middleware/upload.js:40 | the result has one character per UTF-16 code unit of the name, each an ASCII letter, digit or `_`; on a name within the Basic Multilingual Plane each letter or digit stays in place and every other character becomes `_` |
| Upload.UnderscoredEmoji | backend/middleware/upload.js:40 | a character outside the Basic Multilingual Plane is two code units and becomes two underscores: `a` followed by an emoji gives `a__` |
| Upload.Take | backend/middleware/upload.js:41 | `substring(0, n)` of an ASCII text is its prefix of length `min(n, |s|)` |
| Upload.Hex | backend/middleware/upload.js:37 | the random bytes give two hexadecimal digits each, none of them a dash |
| Upload.Sanitized | backend/middleware/upload.js:40-41 | a sanitised base has at most 20 characters, each a letter, digit or `_` |
| Upload.SafeBase | backend/middleware/upload.js:38-41 | the base of the original name, sanitised, has at most 20 characters, each a letter, digit or `_` |
| Upload.StoredFilename | backend/middleware/upload.js:34-45 | the stored name splits at its first two dashes into the timestamp, the hex of the random bytes and the sanitised base followed by the lower-cased extension |
| Upload.NoDashInParts | backend/middleware/upload.js:36-43 | neither the timestamp's digits nor the hex contain a dash, so the name's first two dashes are the separators |
| Upload.DashedParts | backend/middleware/upload.js:43 | a name `a-b-rest` built from dash-free `a` and `b` splits back into them at its first two dashes |
| Upload.ExtNameOf | backend/middleware/upload.js:38 | the extension of `b.x` is `.x` when `x` holds no dot |
| Upload.LastIndexOfConcat | backend/middleware/upload.js:38 | the last occurrence of a character in `a + c + x`, with `c` not in `x`, is at `|a|` |
| Upload.UpperCaseExtensionKept | backend/middleware/upload.js:38-39 | an extension not already lower-case is not cut off the base, because `basename` is given the lower-cased extension |
| Upload.LowerCaseExtensionCut | backend/middleware/upload.js:38-41 | a lower-case extension is cut off, so the base is the sanitised name before it |
| Upload.AllowedTypes | backend/middleware/upload.js:50 | the allow-list always has at least one entry |
| Upload.SplitJoin | backend/middleware/upload.js:50 | splitting a comma-joined list of comma-free entries gives the list back |
| Upload.BeforeFirstWhole | backend/middleware/upload.js:50 | the text before the first `,` of a text without one is the whole text |
| Upload.DefaultTypesJoined | backend/middleware/upload.js:50 | the literal default is the four image types joined by commas |
| Upload.DefaultTypes | backend/middleware/upload.js:50 | with `ALLOWED_FILE_TYPES` unset the allow-list is jpeg, jpg, png and webp |
| Upload.FileFilter | backend/middleware/upload.js:49-67 | a file is accepted exactly when its lower-cased MIME type is on the allow-list and its lower-cased extension is one of the four; a bad type is reported before a bad extension, each with its own message |
| Upload.FilterIgnoresCase | backend/middleware/upload.js:53-54 | two files whose type and extension agree up to case get the same verdict |
| Upload.LimitFrom | backend/middleware/upload.js:74-75 | an unset variable gives the default; any other result is the default or a non-zero number the variable parses to |
| Upload.LimitsFromEnvironment | backend/middleware/upload.js:73-76 | unset variables give 5 MiB and ten files; a positive number is taken as written, and `0` falls back to the default |
| Upload.DefaultSizeText | backend/middleware/upload.js:140 | the default size is rendered as `5.0` megabytes |
| Upload.ArrayOutcome | backend/middleware/upload.js:127-186 | no error goes on to the next handler; every error answers 400: the size and count errors with their limit messages, an unexpected field with its message, and any other error with the error's own message |
| Upload.DefaultLimitMessages | backend/middleware/upload.js:137-149 | with the default limits the messages read '5.0MB' and '10 files' |
| Upload.Cleanup | backend/middleware/upload.js:220-235 | exactly the listed files with a path that exist and can be unlinked leave the disk; a failing unlink is skipped and the rest go on |
| Upload.CleanupKeepsOthers | backend/middleware/upload.js:220-235 | a file not listed is never touched, and a listed one that can be unlinked is gone afterwards |
| Upload.PathsInMember | backend/middleware/upload.js:223-226 | a path is cleaned exactly when some entry is present and carries that non-empty path; a single file counts as a one-entry list |
| Upload.CreateUploadDirs | backend/middleware/upload.js:8-22 | the directories afterwards are those created by making each of the four upload directories, with parents, in order |
| Upload.MkdirAllProps | backend/middleware/upload.js:16-21 | existing directories stay, every listed directory exists afterwards, and each new one is one of those directories or a parent of it |
| Validation.FieldValue | backend/middleware/validation.js:34 | a route parameter is present exactly when the request has it |
| Validation.Applied | backend/middleware/validation.js:153-156 | the rule chains of a set, one middleware per rule in order |
| Validation.CreateValidation | backend/middleware/validation.js:148-157 | an unknown set name fails with "Validation set '<name>' not found"; a known one gives its chains in order followed by the error handler |
| Validation.RunApplied | backend/middleware/validation.js:127-145 | running the chains and then the handler produces the errors already recorded followed by every rule's errors in order, each rule seeing the request as the earlier rules' sanitisers left it; with no error the request goes on with every sanitiser applied |
| Validation.ValidationGate | backend/middleware/validation.js:127-157 | `createValidation(name)` lets a request through, rewritten by the set's sanitisers, exactly when none of the set's rules records an error, and otherwise rejects it with all of them in rule order |
| Validation.AllErrorsCons | backend/middleware/validation.js:68-124 | a list of rules records no error exactly when its first rule records none and the rest record none on the request the first rule's sanitiser leaves |
| Validation.SingleCheck | backend/middleware/validation.js:39-64 | a one-check rule reports that check's errors, except that an optional rule skips an absent field |
| Validation.OneRuleEmpty | backend/middleware/validation.js:6-64 | a one-check rule records nothing exactly when it is optional with the field absent or its validator accepts the value |
| Validation.OptionalRule | backend/middleware/validation.js:39-64 | an optional one-check rule records nothing exactly when the field is absent or passes |
| Validation.MobileRuleAccepts | backend/middleware/validation.js:15-17 | `mobile` passes exactly when its text is ten digits, and otherwise there is one error with the rule's message |
| Validation.OtpRuleAccepts | backend/middleware/validation.js:19-21 | `otp` passes exactly when its text is six digits, and otherwise there is one error with the rule's message |
| Validation.IdsRuleAccepts | backend/middleware/validation.js:24-115 | a wrong length and a bad id are reported separately, and a value that is not an array also gets the engine's `TypeError` from the custom check; the chain records nothing exactly for an array of 1 to `max` ObjectId strings |
| Validation.IdsRuleSets | backend/middleware/validation.js:93-115 | detection takes 1 to 10 ids and bulk delete 1 to 50, in the same format |
| Validation.ListingQueryRules | backend/middleware/validation.js:39-123 | the listing query passes exactly when each present parameter is valid: page an integer 1-1000, limit 1-100, processed a boolean, sortBy one of four fields and sortOrder asc or desc |
| Validation.LoginRules | backend/middleware/validation.js:6-79 | the login set passes exactly for a valid email, a password of at least six characters, a ten-digit mobile and a six-digit OTP |
| Validation.FirstOffender | backend/middleware/validation.js:183-199 | the first file that is too large or of a type not allowed, with every earlier file fine; none exactly when every file passes |
| Validation.ValidateFileUpload | backend/middleware/validation.js:162-202 | the loop answers exactly as the outcome function: no files, too many files, then the first offending file |
| Validation.FileUploadAccepts | backend/middleware/validation.js:162-202 | a missing or empty batch answers 'No files uploaded', an over-long one the count message, and the batch goes on exactly when every file is within the size and of an allowed type (compared as written, not lower-cased) |
| Validation.FileUploadReportsFirst | backend/middleware/validation.js:183-199 | within the count, the answer names the first offending file: its size when too large, otherwise its type |
| Validation.IndexFrom | backend/middleware/validation.js:209 | the first `c` at or after `from`, or none when no later character is `c` |
| Validation.ScriptBodyLength | backend/middleware/validation.js:209 | a lazy script body match ends after a closing tag within the text |
| Validation.ScriptBlockAt | backend/middleware/validation.js:209 | a script block match at the start is non-empty and within the text |
| Validation.RemoveScripts | backend/middleware/validation.js:209 | removing script blocks never lengthens the text |
| Validation.TagAt | backend/middleware/validation.js:210 | a tag match at the start is at least three characters and within the text |
| Validation.RemoveTags | backend/middleware/validation.js:210 | removing tags never lengthens the text |
| Validation.RemoveTagsKeepsChars | backend/middleware/validation.js:210 | removing tags adds no character that was not there |
| Validation.RemoveTagsTagFree | backend/middleware/validation.js:210 | one global pass of the tag pattern leaves no tag behind |
| Validation.ConsTagFree | backend/middleware/validation.js:210 | a character kept before a tag-free rest keeps the text tag-free |
| Validation.ConsTagFreeAt | backend/middleware/validation.js:210 | the per-position step of that argument: every `<`, `>` pair in the result has a `>` between them |
| Validation.TagFreeSlice | backend/middleware/validation.js:211 | a slice of a tag-free text is tag-free |
| Validation.TrimIsSlice | backend/middleware/validation.js:211 | trimming keeps a contiguous slice |
| Validation.SanitizedIsTagFree | backend/middleware/validation.js:207-212 | whatever the input, a sanitised string contains no tag |
| Validation.NoAngleKept | backend/middleware/validation.js:209-210 | text with no `<` passes both removals unchanged |
| Validation.PlainTextOnlyTrimmed | backend/middleware/validation.js:207-212 | text with no `<` is only trimmed |
| Validation.BodyThenCloseTag | backend/middleware/validation.js:209 | the lazy body stops at the first closing tag when no line terminator comes before it |
| Validation.IndexFromFirst | backend/middleware/validation.js:209 | the search finds exactly the first occurrence |
| Validation.ScriptBlockLength | backend/middleware/validation.js:209 | a block whose opening tag ends at the first `>` and whose body reaches the first closing tag matches up to the end of that tag |
| Validation.ScriptBlockRemoved | backend/middleware/validation.js:207-212 | such a block is removed whole, and the search resumes after its closing tag |
| Validation.RemoveScriptsSkips | backend/middleware/validation.js:209 | a block matched at the start is skipped whole |
| Validation.SanitizeItems | backend/middleware/validation.js:214-222 | an array is rewritten member by member, keeping its length |
| Validation.SanitizeFields | backend/middleware/validation.js:214-222 | an object keeps its keys in order, each value rewritten |
| Validation.SanitizeMemberProps | backend/middleware/validation.js:214-222 | sanitising keeps the structure and leaves no tag in any string at any depth |
| Validation.SanitizeInput | backend/middleware/validation.js:205-233 | route parameters are untouched, and the body and query are present afterwards exactly when they were before |
| Validation.SanitizeInputProps | backend/middleware/validation.js:224-226 | after `sanitizeInput` an object body has its former shape and no string member holding a tag |
| Validation.SetField | backend/middleware/validation.js:8 | replacing a body field's value keeps the field list's length and its keys in order |
| Validation.GetSetField | backend/middleware/validation.js:8 | after a replacement the replaced field, when present, reads as the new value and every other field reads as before |
| Validation.Sanitize | backend/middleware/validation.js:6-9 | the email rule's sanitiser leaves route parameters and query untouched and rewrites only the body's `email` |
| Validation.SanitizeReads | backend/middleware/validation.js:6-9 | after the sanitiser a present, non-array `email` reads as its normalised text, and every other field of every location reads as before |
| Validation.LoginPassesNormalizedEmail | backend/middleware/validation.js:6-79 | a login request that passes goes on with `email` replaced by its normalised text and every other field, parameter and query value unchanged |
| Redis.Without | backend/config/redis.js:87-112 | deleting a key removes its value and its expiry and leaves every other key as it was |
| Redis.GetReply | backend/config/redis.js:85-92 | `get` yields a value exactly when the key has not expired and holds a non-empty value (an empty string reads as null), and then it is the stored value |
| Redis.ExistsReply | backend/config/redis.js:116-123 | `exists` is 1 exactly when the key has not expired and is stored, and 0 otherwise |
| Redis.SetT | backend/config/redis.js:94-102 | `set` replaces the value; a non-zero `EX` sets the expiry to now plus that many seconds, and otherwise the old expiry is kept |
| Redis.SetExT | backend/config/redis.js:104-108 | `setEx` replaces the value and sets the expiry to now plus the seconds |
| Redis.ExpiredKeys | backend/config/redis.js:139-144 | the keys `cleanup` drops are exactly those whose expiry lies before now |
| Redis.MemoryClient.constructor | backend/config/redis.js:79-83 | a new memory client holds no values and no expiries |
| Redis.MemoryClient.Get | backend/config/redis.js:85-92 | the reply is `get`'s, and an expired key is deleted on the way |
| Redis.MemoryClient.Set | backend/config/redis.js:94-102 | answers 'OK' and the table becomes the `set` update |
| Redis.MemoryClient.SetEx | backend/config/redis.js:104-108 | answers 'OK' and the table becomes the `setEx` update |
| Redis.MemoryClient.Del | backend/config/redis.js:110-114 | answers 1 whether or not the key existed, and the key is gone |
| Redis.MemoryClient.Exists | backend/config/redis.js:116-123 | the reply is `exists`'s, and an expired key is deleted on the way |
| Redis.MemoryClient.FlushDb | backend/config/redis.js:127-131 | answers 'OK' and the table is empty |
| Redis.MemoryClient.Cleanup | backend/config/redis.js:138-146 | the loop over the expiry entries removes exactly the expired keys from both maps |
| Redis.SetExLifetime | backend/config/redis.js:86-108 | a key set with `setEx` is still readable at exactly its expiry time and gone one millisecond later |
| Redis.SetKeepsExpiry | backend/config/redis.js:94-100 | a plain `set` over a key with an expiry inherits it, so the new value vanishes at the old time |
| Redis.CleanupUnobservable | backend/config/redis.js:138-146 | `cleanup` changes no reply of `get` or `exists` |
| Redis.ReadTouchesOnlyItsKey | backend/config/redis.js:85-92 | reading a key leaves every other key reading as before |
| Redis.RedisConnection.constructor | backend/config/redis.js:5-19 | a new connection has no client and is not connected |
| Redis.RedisConnection.Connect | backend/config/redis.js:21-77 | a live connection is returned as it is; a reachable server connects; an unreachable one falls back to a fresh, empty memory client only when NODE_ENV is 'development', and otherwise the error is rethrown with the failed client kept and the connection marked down |
| Otp.KeysDistinct | backend/services/otpService.js:31-46 | two mobiles share the key `otp:<mobile>` only when they are equal |
| Otp.Pow10 | backend/services/otpService.js:30 | powers of ten are positive |
| Otp.NatToStringLength | backend/services/otpService.js:30 | a number between `10^k` and `10^(k+1)` is written with `k+1` digits |
| Otp.SixDigits | backend/services/otpService.js:30 | every number from 100000 to 999999 is written with six digits |
| Otp.CodeOf | backend/services/otpService.js:30 | a code is six digits and reads back as 100000 plus the draw |
| Otp.Stored | backend/services/otpService.js:14-18 | `setEx` stores the code under its key and schedules one deletion timer for that key |
| Otp.Fired | backend/services/otpService.js:16 | the oldest timer deletes its key, whatever is stored there now |
| Otp.Deleted | backend/services/otpService.js:20-23 | deleting removes the mobile's key and leaves the timers pending |
| Otp.OtpService.constructor | backend/services/otpService.js:12-24 | the fallback store starts with no codes and no timers |
| Otp.OtpService.GenerateOTP | backend/services/otpService.js:29-36 | the code returned is the six-digit code of the draw, and the store holds it under the mobile's key with a deletion timer |
| Otp.OtpService.VerifyOTP | backend/services/otpService.js:38-43 | verification holds exactly when a non-empty code is stored for the mobile and equals the one given |
| Otp.OtpService.DeleteOTP | backend/services/otpService.js:45-48 | the mobile's code is removed |
| Otp.OtpService.Expire | backend/services/otpService.js:16 | the oldest pending timer fires |
| Otp.GeneratedCodeVerifies | backend/services/otpService.js:29-43 | after a code is generated for a mobile, exactly that code verifies |
| Otp.NewCodeReplacesOld | backend/services/otpService.js:14-36 | a second code for the same mobile replaces the first, which no longer verifies |
| Otp.DeleteOnlyItsMobile | backend/services/otpService.js:38-48 | after deletion no code verifies for that mobile, and every other mobile verifies as before |
| Otp.StaleTimerDeletesNewerCode | backend/services/otpService.js:14-18 | the timer of an older code also deletes a newer code for the same mobile, so the newer code stops verifying early |
| AuthController.OrElse | backend/controllers/authController.js:140-205 | `a \|\| b` is `a` when it is a non-empty string and `b` otherwise |
| AuthController.OrDefault | backend/controllers/authController.js:132-141 | `value \|\| fallback` is the value when it is non-empty and the fallback otherwise |
| AuthController.HashRounds | backend/controllers/authController.js:88 | the bcrypt rounds are never 0: a missing, unparsable or zero setting gives 12 |
| AuthController.Sign | backend/controllers/authController.js:125-142 | signing succeeds exactly when the secret is set and non-empty, and the token carries the claims, secret and lifetime given |
| AuthController.SendOtp | backend/controllers/authController.js:11-58 | a failed validation answers 400 and stores nothing; otherwise a code is stored for the mobile, and in production it goes out by SMS with 500 'Failed to send SMS. Please try again.' when sending throws, while outside production the code is in the answer |
| AuthController.SendOtpStoresCode | backend/controllers/authController.js:25-49 | a validated request stores a code that then verifies for the mobile; the code is in the answer exactly outside production, and in production it is in the SMS text only |
| AuthController.AsWrittenSendOtpFailsInProduction | backend/controllers/authController.js:6-38 | with `sendSMS` called detached from its service, every validated production request answers 500, although the code was stored |
| AuthController.CorrectedSendOtpSucceedsInProduction | backend/services/smsService.js:105-124 | called on the service object, `sendSMS` always resolves, so a validated production request answers 'OTP sent successfully' without the code |
| AuthController.FinishLogin | backend/controllers/authController.js:117-156 | the tail of a login deletes the mobile's OTP, saves `lastLogin` and signs both tokens, as the specification function says |
| AuthController.LoginNewUser | backend/controllers/authController.js:86-99 | a first login creates the user and then runs the tail |
| AuthController.LoginKnownUser | backend/controllers/authController.js:100-115 | a known user's password is compared, the mobile updated when different, and then the tail runs |
| AuthController.Login | backend/controllers/authController.js:61-165 | the handler does exactly what the login specification does: validation, then the OTP, then find-or-create |
| AuthController.LoginChecksOtpFirst | backend/controllers/authController.js:74-81 | a code that does not verify answers 400 'Invalid or expired OTP' before any user is looked up, and changes nothing |
| AuthController.WrongPasswordKeepsOtp | backend/controllers/authController.js:101-108 | a known email with a wrong password answers 400 'Invalid credentials', changes nothing, and the OTP still verifies |
| AuthController.FinishFacts | backend/controllers/authController.js:117-156 | the tail deletes the OTP, updates only the logged-in user (with `lastLogin` now), keeps the collection valid, and succeeds exactly when `JWT_SECRET` is set, handing out that user's tokens and password-free view |
| AuthController.LoginCreatesUser | backend/controllers/authController.js:86-122 | a first login appends one user with the normalised email, the hashed password, the mobile, verified, the first name taken from the email, and `lastLogin` now; the OTP is deleted |
| AuthController.LoginReplacesMobile | backend/controllers/authController.js:110-122 | a known user logging in with a valid mobile keeps every other user, and gets the new mobile and `lastLogin` now |
| AuthController.FinishSuccess | backend/controllers/authController.js:117-142 | a successful tail has deleted the OTP, and the access token carries {userId, email, 'access'} and the refresh token {userId, 'refresh'} of the returned user, stamped now |
| AuthController.LoginNewSuccess | backend/controllers/authController.js:86-142 | the same for a first login |
| AuthController.LoginKnownSuccess | backend/controllers/authController.js:100-142 | the same for a known user |
| AuthController.LoginSuccess | backend/controllers/authController.js:117-156 | after a successful login no code verifies for that mobile, and the tokens carry the returned user's claims |
| AuthController.LoginKeepsValid | backend/controllers/authController.js:61-165 | every login, successful or not, keeps the user collection valid with unique emails and ids |
| AuthController.LoginNewKeepsValid | backend/controllers/authController.js:86-99 | a verified first login, which creates the user, keeps the collection valid |
| AuthController.LoginExistingKeepsValid | backend/controllers/authController.js:100-165 | a verified login of a known email, whatever the password check gives, keeps the collection valid |
| AuthController.RefreshToken | backend/controllers/authController.js:194-245 | no token answers 400 'Refresh token is required'; a refresh hands out the access token of a stored user |
| AuthController.RefreshTokenErrors | backend/controllers/authController.js:198-244 | the errors come in order: a token that does not verify 401, a token of the wrong type 400, an unknown user 404 |
| AuthController.LoginNewAt | backend/controllers/authController.js:86-156 | after a first login the new user at the end is the one whose tokens were handed out |
| AuthController.LoginKnownAt | backend/controllers/authController.js:100-156 | after a known user's login that user is the one whose tokens were handed out |
| AuthController.LoginUserAt | backend/controllers/authController.js:61-156 | after any successful login some stored user is the one whose tokens were handed out |
| AuthController.RefreshFindsUser | backend/controllers/authController.js:205-236 | a verifying refresh token of a stored user buys that user's access token |
| AuthController.LoginThenRefresh | backend/controllers/authController.js:135-236 | the refresh token a login hands out, once it verifies, buys the same access token the login gave |
| AuthController.VerifyOtp | backend/controllers/authController.js:272-306 | the answer is success exactly when validation passes and the code verifies; otherwise it is the validation error or 400 'Invalid or expired OTP'; the store is left alone |
| AuthController.VerifiedCodeStillLogsIn | backend/controllers/authController.js:74-306 | because the endpoint deletes nothing, a code it accepted still passes login's OTP check |
| AuthController.FinishNeverInvalidOtp | backend/controllers/authController.js:117-156 | the tail never answers 'Invalid or expired OTP' |
| AuthRoutes.SendOtpErrors | backend/routes/auth.js:13-20 | `/send-otp` records no error exactly for a ten-digit mobile, and otherwise the one mobile error |
| AuthRoutes.LoginErrors | backend/routes/auth.js:44-54 | `/login` records no error exactly for a valid email, a password of at least six characters, a ten-digit mobile and a six-digit OTP; at most four errors, one per field |
| AuthRoutes.SendOtpRoute | backend/routes/auth.js:13-41 | the handler does exactly what the route's specification does: the rule, the code, the SMS in production, the answer |
| AuthRoutes.SendOtpRouteOutcome | backend/routes/auth.js:17-36 | a mobile that is not ten digits is refused and nothing is stored; otherwise the new code verifies, and it is in the answer exactly outside production |
| AuthRoutes.SendOtpRouteDetachedFails | backend/routes/auth.js:7-40 | with `sendSMS` taken off its service, every valid production request answers 500 'Failed to send OTP' after storing a code |
| AuthRoutes.SendOtpRouteBoundSucceeds | backend/services/smsService.js:105-124 | called on the service, `sendSMS` resolves and the same request answers 'OTP sent successfully' without the code |
| AuthRoutes.OtpGate | backend/routes/auth.js:59-62 | the test lets a request through exactly when the promise is not awaited (a promise is truthy) or the code verifies |
| AuthRoutes.RouteFinishLogin | backend/routes/auth.js:83-101 | the tail deletes the mobile's OTP and signs the token, as the specification function says; the users are not written |
| AuthRoutes.LoginRoute | backend/routes/auth.js:44-106 | the handler does exactly what the route's login specification does |
| AuthRoutes.RouteCreateAndFinish | backend/routes/auth.js:66-101 | the unknown-email branch: create the user, then the tail |
| AuthRoutes.RouteCheckAndFinish | backend/routes/auth.js:75-101 | the known-email branch: compare the password, then the tail |
| AuthRoutes.LoginRouteValidation | backend/routes/auth.js:51-54 | a request failing any rule is refused with exactly those errors and changes nothing; one passing all four is never refused by validation |
| AuthRoutes.AsWrittenRouteIgnoresOtp | backend/routes/auth.js:59-62 | as written, a valid request goes on to find-or-create whatever code it carries, and is never answered 'Invalid or expired OTP' |
| AuthRoutes.RouteAfterOtpOutcome | backend/routes/auth.js:65-101 | past the OTP test the route logs in, or answers 400 'Invalid credentials' for a wrong password, or 500 'Server error' for a failing save or signature |
| AuthRoutes.RouteNewOutcome | backend/routes/auth.js:66-104 | a first login logs in or answers 500 |
| AuthRoutes.RouteKnownOutcome | backend/routes/auth.js:75-104 | a known user logs in, or answers 400 for a wrong password, or 500 |
| AuthRoutes.RouteFinishOutcome | backend/routes/auth.js:83-104 | the tail logs in or answers 500 |
| AuthRoutes.AwaitedRouteChecksOtp | backend/routes/auth.js:59-62 | awaited, the test refuses every code that does not verify with 400 and changes nothing, and lets the verifying ones through |
| AuthRoutes.RouteCreatesUser | backend/routes/auth.js:66-74 | an unknown email appends a verified user with the hash at cost 12, the request's mobile, the normalised email and no profile, and the collection stays valid |
| AuthRoutes.RouteKnownFacts | backend/routes/auth.js:75-84 | for the user at a given position the users are never changed; a wrong password answers 400 with everything kept, and otherwise the OTP is deleted |
| AuthRoutes.RouteKnownUserUnchanged | backend/routes/auth.js:65-84 | for a known email the stored users are never changed, and unlike the controller the stored mobile is not replaced |
| AuthRoutes.RouteNewShape | backend/routes/auth.js:66-101 | a successful first login deletes the OTP and answers with a token whose only claim is the new user's id, signed with `JWT_SECRET`, and that user's id, email and mobile |
| AuthRoutes.RouteKnownShape | backend/routes/auth.js:75-101 | the same for a known user at its position |
| AuthRoutes.RouteSuccess | backend/routes/auth.js:83-101 | a successful route login leaves no code that verifies for the mobile, and answers with a token carrying only the user id and a stored user's id, email and mobile |
| UserSchema.LowerOfLower | backend/models/User.js:8 | the `lowercase` setter leaves a text whose characters are already lower-case unchanged |
| UserSchema.TrimOfTrimmed | backend/models/User.js:9 | the `trim` setter leaves a text with no white space at either end unchanged |
| UserSchema.LowerCharLower | backend/models/User.js:8 | lower-casing a character twice is lower-casing it once, and leaves no upper-case ASCII letter |
| UserSchema.LowerIsFixed | backend/models/User.js:8 | every character of a lower-cased text is its own lower-case form |
| UserSchema.TrimKeepsFixed | backend/models/User.js:8-9 | trimming a lower-case text keeps it lower-case and leaves no white space at its ends |
| UserSchema.NormalizedIsLower | backend/models/User.js:8-9 | every character of a stored email is its own lower-case form |
| UserSchema.NormalizeFixed | backend/models/User.js:8-9 | a lower-case, trimmed email is left alone by the setters |
| UserSchema.NormalizeEmailIdempotent | backend/models/User.js:8-9 | a stored email has no upper-case ASCII letter and no surrounding white space, so the setters applied again change nothing |
| UserSchema.UserErrors | backend/models/User.js:4-20 | a user passes validation exactly when the email is present, the password present with at least six UTF-16 code units, and the mobile present and ten digits |
| UserSchema.NewUser | backend/models/User.js:3-37 | a document is built exactly when validation passes, with the normalised email, the password and mobile given, `isVerified` defaulting to false, `createdAt` now, no `lastLogin`, and an empty profile when none is given; a failure lists at least one error |
| UserSchema.FindByEmail | backend/models/User.js:8-9 | the lookup normalises the queried email like the setters and finds the first user with that email, or none exactly when no user has it |
| UserSchema.FindWhere | backend/models/User.js:40 | the first user from a position on with the email, or none exactly when no later user has it |
| UserSchema.FindById | backend/controllers/authController.js:214 | the user with the id, or none exactly when the id is absent or no user has it |
| UserSchema.FindIdFrom | backend/controllers/authController.js:214 | the first user from a position on with the id, or none exactly when no later user has it |
| UserSchema.Insert | backend/models/User.js:3-7 | saving a new document succeeds exactly when it validates and no stored user has its id or email, and then appends it |
| UserSchema.Update | backend/models/User.js:3-37 | a successful save replaces the user with that id and keeps every other user |
| UserSchema.Build | backend/models/User.js:3-37 | with the email already normalised, a document is built exactly when validation passes and carries the given values and the defaults |
| UserSchema.AppendKeepsValid | backend/models/User.js:7 | appending a valid user whose id and email are new keeps the collection valid |
| UserSchema.InsertKeepsValid | backend/models/User.js:7 | inserting keeps every user valid and ids and emails unique |
| UserSchema.UpdateKeepsValid | backend/models/User.js:4-20 | saving a stored user without changing its email succeeds exactly when it validates, and keeps the collection valid |
| UserSchema.UserCollection.constructor | backend/models/User.js:43 | the collection starts empty |
| UserSchema.UserCollection.Create | backend/models/User.js:3-37 | `save()` on a new user succeeds exactly when the insert would, stores it, and changes nothing otherwise |
| UserSchema.UserCollection.Save | backend/models/User.js:3-37 | `save()` on a changed user succeeds exactly when the update would, and changes nothing otherwise |
| Sms.FormatPhoneNumberCases | backend/services/smsService.js:145-159 | after the non-digits are dropped, ten digits get `+91`, and every other digit string gets `+` (twelve digits starting `91` included, since a digit string never starts with `+`) |
| Sms.FormatPhoneNumberShape | backend/services/smsService.js:145-159 | a formatted number is `+` followed by digits only |
| Sms.FormatPhoneNumberIdempotent | backend/services/smsService.js:145-159 | formatting an already formatted number changes nothing |
| Sms.FormatWhatsAppNumber | backend/services/smsService.js:161-164 | the WhatsApp address is `whatsapp:` followed by the formatted number |
| Sms.SmsService.constructor | backend/services/smsService.js:4-38 | the service is configured, with a client and the sender numbers of the environment, exactly when the credentials are set, not the placeholders, the SID starts with `AC`, and Twilio loads; otherwise it has no client and no numbers |
| Sms.SmsService.Initialize | backend/services/smsService.js:10-38 | valid credentials and a loading library configure the service; anything else leaves every field as it was |
| Sms.SmsService.SendSms | backend/services/smsService.js:40-92 | sending always reports success: the mock when unconfigured or in development, otherwise a Twilio request from the sender number to the formatted number, with Twilio's id and status on success and the mock fallback on failure |
| Sms.SmsService.SendWhatsApp | backend/services/smsService.js:94-143 | as for SMS, but the mock is also used when no WhatsApp sender is set, and the request goes from the WhatsApp sender to `whatsapp:` and the formatted number |
| Sms.CallSendSms | backend/services/smsService.js:40-42 | the call resolves exactly when `sendSMS` runs on the service object; taken off the object it rejects, because it reads `this.isConfigured` |
| Api.BaseUrl | frontend/src/services/api.js:2 | the base URL is the configured `VITE_API_URL` when that is set and non-empty, and `http://localhost:3001` otherwise |
| Api.RequestUrl | frontend/src/services/api.js:22 | the request URL starts with the base URL, and the endpoint is what follows it |
| Api.GetHeaders | frontend/src/services/api.js:5-18 | the headers always have the JSON Content-Type; they have `Authorization: Bearer <token>` exactly when auth is asked for and a non-empty token is stored; no other key appears |
| Api.RequestConfig | frontend/src/services/api.js:24-30 | the method and body come from the options; the header keys are the default ones plus the caller's; a caller's header overrides the default, and a default the caller leaves unset keeps its value |
| Api.AuthUnlessExplicitlyFalse | frontend/src/services/api.js:27 | unless the caller sets its own Authorization, the bearer token is sent exactly when `auth` is not explicitly `false` and a token is stored, so a missing `auth` sends it |
| Api.AsWrittenUploadSendsJsonType | frontend/src/services/api.js:87-93 | as written, the image upload's empty `headers: {}` overrides nothing, so the FormData body goes out with `Content-Type: application/json` |
| Api.CorrectedRequestConfig | frontend/src/services/api.js:24-30 | the corrected configuration keeps the method and body of the options |
| Api.CorrectedUploadOmitsJsonType | frontend/src/services/api.js:87-93 | corrected, the upload has no Content-Type, and it still carries the bearer token exactly when one is stored; a request without a FormData body is configured exactly as before |
| Api.ErrorMessage | frontend/src/services/api.js:46 | the error text is the JSON body's non-empty `message`, and otherwise `HTTP error! status: <status>` |
| Api.Outcome | frontend/src/services/api.js:32-53 | a network failure rethrows its error; a reply resolves exactly when it is ok and, when its content type names JSON, the JSON parses; an ok non-JSON reply resolves with its text; a failing reply without JSON throws the status text |
| Api.ApiRequest | frontend/src/services/api.js:21-54 | `apiRequest` sends to the base URL followed by the endpoint, with the merged configuration, and settles with the outcome of the reply |
| Api.FirstMatch | frontend/src/services/api.js:125-147 | a table lookup that gives no text exactly when no needle occurs in the message, and otherwise the text of the first needle that occurs |
| Api.HandleApiErrorIsFirstMatch | frontend/src/services/api.js:125-147 | `handleApiError` gives the text of the first of `Failed to fetch`, `401`, `403`, `404`, `500` found in the message, and otherwise the message itself, or the fallback text when it is empty |
| Api.StatusMessage | frontend/src/services/api.js:46 | an error reply without a `message` field carries a text that holds its status and never `Failed to fetch` |
| Api.HttpStatusClassified | frontend/src/services/api.js:46-144 | a 401, 403, 404 or 500 reply without a `message` field is classified by its status: authentication failed, access denied, not found, server error |
| Api.NetworkFailureClassified | frontend/src/services/api.js:126-128 | a `fetch` that fails with `Failed to fetch` shows the network message |
| ImageUpload.Rejection | frontend/src/components/ImageUpload/ImageUpload.jsx:46-61 | a file is kept exactly when its type is JPEG, JPG, PNG or WebP and it is at most 5 MiB; a wrong type reports the type message even when the size is also too large, and a too-large file reports the size message |
| ImageUpload.ValidFiles | frontend/src/components/ImageUpload/ImageUpload.jsx:46-61 | the filter keeps no more files than it is given, and every file it keeps is accepted |
| ImageUpload.ValidFilesAppend | frontend/src/components/ImageUpload/ImageUpload.jsx:46-61 | filtering a concatenation is concatenating the filtered parts, so the kept files stay in their order |
| ImageUpload.ValidFilesMembers | frontend/src/components/ImageUpload/ImageUpload.jsx:46-61 | a file is kept exactly when it was given and it is accepted |
| ImageUpload.LastRejectionIsLast | frontend/src/components/ImageUpload/ImageUpload.jsx:50-57 | after the filter, the error is the message of the last dropped file |
| ImageUpload.PreviewsOf | frontend/src/components/ImageUpload/ImageUpload.jsx:76-88 | one preview per kept file, in file order, each holding its file and its data URL |
| ImageUpload.RemoveAt | frontend/src/components/ImageUpload/ImageUpload.jsx:93-94 | removing an index inside the list drops exactly that position and keeps the others in order; an index outside the list removes nothing |
| ImageUpload.ImageSelection.constructor | frontend/src/components/ImageUpload/ImageUpload.jsx:11-15 | the selection starts with no files, no previews, no error, and no upload under way |
| ImageUpload.ImageSelection.HandleFiles | frontend/src/components/ImageUpload/ImageUpload.jsx:45-89 | when no file is accepted the selection is unchanged and the error is that of the last dropped file; when the total would exceed ten, the whole batch is refused with the limit message; otherwise the accepted files and their previews are appended and the error is cleared; the selection stays at most ten accepted files with one preview each |
| ImageUpload.ImageSelection.RemoveFile | frontend/src/components/ImageUpload/ImageUpload.jsx:92-95 | the same position goes from both the files and the previews, which stay paired |
| ImageUpload.ImageSelection.ClearAll | frontend/src/components/ImageUpload/ImageUpload.jsx:98-105 | files, previews and error are emptied |
| ImageUpload.ImageSelection.UploadImages | frontend/src/components/ImageUpload/ImageUpload.jsx:108-139 | an empty selection sets the select message without calling the API; otherwise every selected file is sent; a result with images hands them on and clears the selection; a result without images or a thrown error keeps the selection and shows the failure or connection message; loading ends in every case |
| FaceDetectionPanel.ToDetect | frontend/src/components/FaceDetection/FaceDetection.jsx:16-18 | the effect never requests more ids than there are images |
| FaceDetectionPanel.ToDetectExactly | frontend/src/components/FaceDetection/FaceDetection.jsx:16-18 | an id is requested exactly when it is not being processed and some image with it is unprocessed |
| FaceDetectionPanel.NewResultsLast | frontend/src/components/FaceDetection/FaceDetection.jsx:33-38 | an id gets a new result exactly when some returned item with it has results and no error, and its result is the last such item's |
| FaceDetectionPanel.DetectionPanel.constructor | frontend/src/components/FaceDetection/FaceDetection.jsx:8-11 | nothing is being processed, no results are kept, and there is no error |
| FaceDetectionPanel.DetectionPanel.BeginDetection | frontend/src/components/FaceDetection/FaceDetection.jsx:22-27 | an empty id list changes nothing; otherwise its ids join the processing set and the error is cleared |
| FaceDetectionPanel.DetectionPanel.EndDetection | frontend/src/components/FaceDetection/FaceDetection.jsx:29-58 | exactly this call's ids leave the processing set; a response with results merges the usable ones over the kept results and refreshes when a refresh handler is given; a throw sets the failure message and keeps the results |
| FaceDetectionPanel.DetectionPanel.AutoProcess | frontend/src/components/FaceDetection/FaceDetection.jsx:14-20 | the effect requests exactly the ids the filter picks and marks them as processing when there are any |
| FaceDetectionPanel.DetectionPanel.HandleFaceDetection | frontend/src/components/FaceDetection/FaceDetection.jsx:22-59 | an empty list changes nothing, not even the error; otherwise the processing set loses the ids, the error is the failure message exactly when the call threw and cleared otherwise, the returned results are merged in and nothing else is, and `onRefresh` is called exactly when results came back and a callback was given |
| FaceDetectionPanel.DetectionPanel.Displayed | frontend/src/components/FaceDetection/FaceDetection.jsx:9 | an image shows the result detected in this panel when there is one, and otherwise its stored result |
| FrontImages.WithoutId | frontend/src/components/Dashboard/Dashboard.jsx:44 | the filtered list holds exactly the images whose id differs, and is no longer than before |
| FrontImages.WithoutIdAppend | frontend/src/components/Dashboard/Dashboard.jsx:44 | removing an id distributes over concatenation, so the other images keep their order |
| FrontImages.WithoutAbsentId | frontend/src/components/Dashboard/Dashboard.jsx:44 | removing an id no image has leaves the list unchanged |
| Dashboard.DashboardState.constructor | frontend/src/components/Dashboard/Dashboard.jsx:13-21 | mounting opens the upload tab and loads the list once: the server's images, or none with the load error when the request throws |
| Dashboard.DashboardState.LoadImages | frontend/src/components/Dashboard/Dashboard.jsx:23-34 | the list becomes the returned images, or empty when the field is missing; a throw keeps the list and sets the load error; loading always ends |
| Dashboard.DashboardState.HandleImageUpload | frontend/src/components/Dashboard/Dashboard.jsx:36-39 | the uploaded images go in front of the list, in their order, and the detection tab opens |
| Dashboard.DashboardState.HandleImageDelete | frontend/src/components/Dashboard/Dashboard.jsx:41-49 | only after the server agrees do the images with that id leave the list; otherwise the list stays and the delete error is set |
| Dashboard.UploadThenDelete | frontend/src/components/Dashboard/Dashboard.jsx:36-44 | deleting a just-uploaded image whose id no earlier image has gives back the list as it was before the upload |
| LoginForm.Set | frontend/src/components/Login/Login.jsx:35-38 | editing a field gives it the new value and leaves the other three fields as they were |
| LoginForm.FormErrors | frontend/src/components/Login/Login.jsx:50-83 | every check runs: the email, password, mobile and OTP each get an error exactly when the anchored email pattern, the minimum of six UTF-16 code units, ten digits or six digits fail; an empty password or OTP gets the "required" text, a short password or malformed OTP its format text; no other key appears |
| LoginForm.FormErrorsEmptyIff | frontend/src/components/Login/Login.jsx:84-85 | `validateForm` records no error exactly when all four checks pass |
| LoginForm.OrText | frontend/src/components/Login/Login.jsx:129 | the server's non-empty error text is shown, and otherwise the fallback |
| LoginForm.LoginPage.constructor | frontend/src/components/Login/Login.jsx:11-23 | the form starts empty, with no errors, no success text, no OTP sent, no expiry, no loading and no development code |
| LoginForm.LoginPage.HandleInputChange | frontend/src/components/Login/Login.jsx:33-47 | the edited field takes the value; its own error, when non-empty, is blanked but keeps its key; every other error and every other state stays |
| LoginForm.LoginPage.ValidateForm | frontend/src/components/Login/Login.jsx:50-86 | the error map is replaced by the new errors, and the form is reported valid exactly when all four checks pass |
| LoginForm.LoginPage.HandleGenerateOtp | frontend/src/components/Login/Login.jsx:89-140 | `sendOTP` is called exactly when the mobile is ten digits, otherwise the mobile error is set; a successful send marks the OTP sent, sets the expiry five minutes ahead, shows the success text and keeps a returned development code; a failure keeps the OTP state and shows the server's error, the fallback, or the network text; loading ends |
| LoginForm.LoginPage.SettleOtpRequest | frontend/src/components/Login/Login.jsx:108-136 | what the settled `sendOTP` does to the page: a success marks the OTP sent with its five-minute expiry, and a failure or a throw sets only the mobile error |
| LoginForm.LoginPage.HandleSubmit | frontend/src/components/Login/Login.jsx:143-181 | `login` is called exactly when the form is valid and the OTP has not expired; an invalid form shows the field errors; an expired OTP shows the expiry error and clears the sent flag; after `login` the page shows the success text, or the general error from the server, the fallback, or the network text; loading ends |
| LoginForm.ExpiryWindow | frontend/src/components/Login/Login.jsx:112-151 | a code requested at a given time reaches `login` up to and including five minutes later, and is refused after that |
| Language.Lookup | frontend/src/context/LanguageContext.jsx:150-152 | `t` gives the table's own non-empty string; for a name the table lacks but every object inherits from `Object.prototype`, such as `toString`, the inherited built-in; and otherwise the key itself |
| Language.SameKeys | frontend/src/context/LanguageContext.jsx:14-123 | the English and Hindi tables define the same keys |
| Language.EnglishNonEmpty | frontend/src/context/LanguageContext.jsx:15-67 | no English string is empty |
| Language.HindiNonEmpty | frontend/src/context/LanguageContext.jsx:69-122 | no Hindi string is empty |
| Language.LookupInEitherLanguage | frontend/src/context/LanguageContext.jsx:150-152 | in either language `t` gives the table's string exactly for the keys of the tables, the inherited built-in for the other `Object.prototype` names, and the bare key otherwise, so a language switch never turns a translated key into a bare one |
| Language.InheritedKeyIsBuiltin | frontend/src/context/LanguageContext.jsx:150-152 | `t('toString')` is not text but the function inherited from `Object.prototype` |
| Language.AsWrittenDirLags | frontend/src/context/LanguageContext.jsx:145 | as written, the `dir` written reads the direction flag from before the change, so switching to Hindi writes `ltr` and switching back to English writes `rtl` |
| Language.CorrectedDirFollowsLanguage | frontend/src/context/LanguageContext.jsx:141-146 | corrected, the `dir` written is `rtl` exactly for Hindi, in step with `lang` |
| Language.LanguageProvider.constructor | frontend/src/context/LanguageContext.jsx:125-136 | the provider starts in English and takes the stored preference exactly when `translations` answers for it, a table or an inherited `Object.prototype` name such as `constructor`, with the direction flag following it; nothing is written to the document |
| Language.LanguageProvider.T | frontend/src/context/LanguageContext.jsx:150-152 | in a language with a table `t` is the table lookup; under `__proto__` it finds the inherited names other than `__proto__` itself, whose value there is `null` and falls back to the key; under any other inherited name the result is left to the host |
| Language.LanguageProvider.ChangeLanguage | frontend/src/context/LanguageContext.jsx:138-148 | a language that `translations` does not answer for, neither a table nor an inherited name, changes nothing; otherwise the language and direction flag follow it, it is stored as the preference, and the document's `dir` and `lang` are written; the flag always agrees with the language |
| MainApp.SendOtpIgnoresDigits | frontend/src/main.jsx:353 | the send check tests only the length: ten letters pass it although they are not a ten-digit number |
| MainApp.LoginGate | frontend/src/main.jsx:370-386 | the login alerts in order: any empty email, password or mobile asks to fill the fields; then an unsent OTP asks to send one; then a code other than the one made is refused; only when all pass is there no alert |
| MainApp.LoggedOutGateRefuses | frontend/src/main.jsx:370-376 | after logout, with every field empty, every login is stopped at the fill-in alert |
| MainApp.LoggedOutCodeNotReused | frontend/src/main.jsx:378-381 | after logout, even with the fields filled in again, a login asks for a new OTP whatever code is entered |
| MainApp.App.constructor | frontend/src/main.jsx:7-29 | the app starts on the login page in English with no user, empty fields, no OTP, the camera off and no detection |
| MainApp.App.T | frontend/src/main.jsx:95 | `t` gives the current language's non-empty string, the inherited built-in for an `Object.prototype` name the table lacks, or the key itself |
| MainApp.App.ToggleLanguage | frontend/src/main.jsx:406 | the language button switches between English and Hindi and changes nothing else shown |
| MainApp.App.HandleSendOtp | frontend/src/main.jsx:352-368 | a code is made exactly when the mobile is ten UTF-16 code units long; it is six digits and `otpSent` is set; otherwise the OTP state stays; the form fields are untouched |
| MainApp.App.RecordCode | frontend/src/main.jsx:358-367 | the code is kept, `otpSent` is set and loading ends, with the form untouched |
| MainApp.App.HandleLogin | frontend/src/main.jsx:370-398 | the login stops at the gate's alert when one applies and then changes nothing; otherwise the user becomes the form's email and mobile and the dashboard opens; the form and the OTP state stay |
| MainApp.App.StopCamera | frontend/src/main.jsx:148-183 | the detection interval is cleared, detection stops, the camera is off and no faces are counted; the login state stays |
| MainApp.App.Logout | frontend/src/main.jsx:516-527 | logout stops the camera, clears the user, returns to the login page and empties every field, `otpSent` and the code, so the gate then refuses every login |
| MainApp.App.StartFaceDetection | frontend/src/main.jsx:271-281 | detection starts, with the new interval, exactly when no interval exists and the camera is on; otherwise nothing changes |
| TraceForm.CheckOtp | trace_lens/trace.js:80-95 | the OTP check fails, in order, for an empty code, for no generated code, for a different code, and for the matching code only when a non-zero send time lies more than five minutes back; it passes exactly when the code is the generated one and has not expired |
| TraceForm.CheckSubmit | trace_lens/trace.js:50-95 | every check runs on the trimmed values: the email error shows exactly when the unanchored pattern fails, the password error exactly below six UTF-16 code units, the mobile error exactly when it is not ten digits, and the OTP error as the OTP check says |
| TraceForm.ResetCodeRefused | trace_lens/trace.js:113-114 | once the code and its send time are reset, every entered code fails the OTP check |
| TraceForm.EmailBlurShowsError | trace_lens/trace.js:122-132 | leaving the email field shows its error exactly for a non-empty trimmed value the unanchored pattern rejects |
| TraceForm.TracePage.constructor | trace_lens/trace.js:4-5 | the page starts with no code, no send time and the mobile error hidden |
| TraceForm.TracePage.GenerateOtp | trace_lens/trace.js:7-45 | a code is made exactly when the trimmed mobile is ten digits, and is then six digits with its send time kept and the mobile error hidden; otherwise the error shows its text and the code stays |
| TraceForm.TracePage.Submit | trace_lens/trace.js:47-99 | the errors shown are those of the four checks against the current code, and the login goes ahead exactly when the email, password and mobile pass and the OTP check passes |
| TraceForm.TracePage.FinishLogin | trace_lens/trace.js:106-118 | after the simulated login the code and its send time are cleared, so no code passes the OTP check again |
| TraceForm.TracePage.OnMobileInput | trace_lens/trace.js:134-142 | the mobile keeps only its digits; its error hides once ten remain and otherwise stays as it was |
| TraceForm.OtpInputFilter | trace_lens/trace.js:144-147 | the OTP filter leaves only digits, and filtering again changes nothing |
| InputMarks.Mark | l.js:121-142 | an email input is marked valid exactly when its trimmed value matches the anchored pattern, invalid when it is non-empty and does not, and unmarked when empty; a password input is valid from six UTF-16 code units, invalid from one to five, and unmarked when empty; any other input gets no mark |
| InputMarks.InputWrapper.constructor | l.js:123 | the wrapper starts with the classes it is given |
| InputMarks.InputWrapper.ValidateInput | l.js:121-142 | both marks are removed and the input's new mark, if any, added; the wrapper never carries both marks, and every other class stays |
| EmailPatterns.StrictImpliesLoose | frontend/src/components/Login/Login.jsx:54 | every address the anchored pattern of the login form accepts is also accepted by the unanchored one of `trace.js` |
| EmailPatterns.StrictHasOneAt | frontend/src/components/Login/Login.jsx:54 | an address the anchored pattern accepts has exactly one `@` |
| EmailPatterns.SpaceBreaksStrict | frontend/src/components/Login/Login.jsx:54 | a white-space character anywhere makes the anchored pattern fail |
| EmailPatterns.LooseAcceptsSpaces | trace_lens/trace.js:61 | an address with a space in it passes the unanchored pattern and fails the anchored one, so the two pages disagree on it |
| EmailPatterns.PlainAddressAccepted | l.js:129 | a plain address such as `user@example.com` passes both patterns |
| AnalysisPage.IsValidImageFile | script.js:83-86 | a file is accepted exactly when its type is JPEG, JPG, PNG, GIF or WebP |
| AnalysisPage.GifOnlyOnThisPage | script.js:84 | this page accepts GIF images, which the React upload panel's type list refuses |
| AnalysisPage.IsValidImageUrl | script.js:110-121 | a URL that does not parse is never accepted |
| AnalysisPage.HostAccepted | script.js:115-117 | a parsing URL that contains `imgur.com`, `unsplash.com` or `pexels.com` anywhere is accepted |
| AnalysisPage.UpperCaseExtensionAccepted | script.js:114 | the extension test ignores case: a parsing URL containing `.JPG` is accepted |
| AnalysisPage.Classify | script.js:554-565 | a difference under a minute, negative ones included, is "just now"; otherwise the unit is days from one day, hours from one hour, and minutes below that, and the count is the number of whole units elapsed, at least one |
| AnalysisPage.PluralExactlyAboveOne | script.js:561-563 | from one minute on, the unit is plural exactly when the count is above one |
| AnalysisPage.JustNowExactlyUnderAMinute | script.js:564 | the text is `Just now` exactly for differences under a minute |
| AnalysisPage.Rules | script.js:507-534 | there are seven keyword groups, in the order they are checked |
| AnalysisPage.FirstGroup | script.js:507-534 | no group answers exactly when no group has a keyword in the message, and otherwise the first group with one does |
| AnalysisPage.FirstGroupWins | script.js:507-534 | the first group with a keyword in the message decides, whatever later groups match too |
| AnalysisPage.GenerateAiResponse | script.js:499-546 | with no image loaded the reply is the upload prompt whatever the message; with an image and no keyword, one of the five default replies |
| AnalysisPage.FirstMatchingGroupAnswers | script.js:500-534 | with an image loaded, the first group whose keyword occurs in the lower-cased message gives the reply |
| AnalysisPage.ScoreBeforeSource | script.js:507-514 | a message that mentions the score gets the score reply even when it also asks about the source |
| AnalysisPage.Page.constructor | script.js:6-9 | the page starts with no image, no analysis running and an empty chat history |
| AnalysisPage.Page.AddChatMessage | script.js:480-496 | exactly one entry, with the sender, the message and the time, is appended to the history, and nothing else changes |
| AnalysisPage.Page.StartAnalysis | script.js:165-168 | an analysis starts exactly when none is running, and afterwards one is running |
| AnalysisPage.Page.FinishAnalysis | script.js:176-181 | the last step ends the analysis and appends exactly the completion message |
| AnalysisPage.Page.SendChatMessage | script.js:456-470 | a message that trims to nothing is ignored; otherwise the trimmed message and then the assistant's reply to it are appended, in that order, and the reply is the one the keyword rules give |
| AnalysisPage.Page.Answer | script.js:465-468 | the delayed reply is the one the keyword rules give for the current image, and it is appended as one entry |
| Strings.Trim | trace_lens/trace.js:50-53 | `trim` never lengthens the text and leaves no white space at either end |
| Strings.DigitsOnly | trace_lens/trace.js:136 | dropping the non-digits leaves only digits and never lengthens the text |
| Strings.DigitsOnlyOfDigits | trace_lens/trace.js:146 | dropping the non-digits from a digit string changes nothing |
| Strings.ParseIntOfNatToString | backend/middleware/upload.js:74-75 | `parseInt` of a rendered non-negative integer gives that integer back |
| Strings.BeforeFirstConcat | backend/controllers/authController.js:95 | the part of an address before its first `@` is recovered whatever follows the `@` |
| Strings.Utf16Length | frontend/src/components/Login/Login.jsx:64 | `.length` counts UTF-16 code units: between one and two per character, exactly one per character when all lie in the Basic Multilingual Plane, and zero only for the empty text |
| Strings.Utf16LengthConcat | backend/middleware/upload.js:40 | the code-unit length of a concatenation is the sum of the lengths |
| Strings.Utf16LengthOfEmoji | backend/middleware/upload.js:40 | `'ab'` followed by an emoji has length 4 |
| Strings.ParseIntUnsigned | backend/controllers/imageController.js:189 | a text that starts with neither white space, a sign nor `0` is read as its leading decimal digits |
| Strings.ParseIntOfFraction | backend/controllers/imageController.js:189 | `parseInt('2.5')` is 2: the digits before the first other character |
| Strings.ParseIntOfLetters | backend/controllers/imageController.js:189 | `parseInt('x')` is `NaN`, modelled as no number |

## Left out

- I/O and foreign libraries: disk access, MongoDB, the Redis server, Twilio, `fetch`, `localStorage` and the DOM. Each is a field or a parameter that says what the call returned. A call whose failure a handler turns into a response also has a flag for throwing: `save()`, `findOne`, `findOneAndDelete`, `find` and `deleteMany` in the image controller. The listing is modelled only for its success path, because `getUserImages` answers any database failure with the same 500 and changes nothing.
- The clock and randomness: `Date.now`, the OTP draw and `crypto.randomBytes` are integer parameters, and each `Math.random()` of the mock detector is a real parameter in [0, 1).
- bcrypt, jwt signing and verification, express-validator's `isEmail`, `normalizeEmail` and `isMongoId`, and the `URL` constructor. They are opaque function or predicate parameters, because their internals are library code.
- The `auth` middleware that authenticates a request is not part of this model. The handlers receive the caller's user id.
- Floating point: the mock detector computes on exact reals, so IEEE rounding is not modelled. The values a face stores are the integers `Math.round` makes of them, with confidences in hundredths. `formatFileSize` is not modelled, because it uses logarithms.
- Timers: every `setTimeout` delay in the front end runs at once. The OTP fallback's deletion timers are an explicit `Expire` event rather than real time.
- Concurrency: two batches racing on the same record, React's batching of state updates, and the order in which `FileReader` previews arrive are not modelled.
- Mongoose's own query engine and ObjectId generation are not modelled. Ids are opaque values handed in, and a query is described by its filter, sort, skip and limit.
- ImageController.UserImagesListing: states the filter, sort key and direction, skip, page count and total handed to the query. The documents Mongoose returns for them are not computed. Query parameters are single strings; a repeated parameter, which Express turns into an array, is not modelled.
- `getImageDetails` (backend/controllers/imageController.js:222-251) and `getImageStats` (backend/controllers/imageController.js:360-405): a single lookup and a database aggregation, outside the modelled core.
- `GET /` of backend/routes/images.js:127-138: a plain listing query, outside the modelled core.
- `analyzeImage`, `healthCheck` and `getStatus` of backend/services/visionService.js:225-284: status reports and a metadata read, outside the modelled core.
- `single`, `fields`, `getFileInfo`, `validateFile`, `moveFile` and `handleUploadError` of backend/middleware/upload.js (lines 85-124, 190-215, 238-304): further multer wrappers and file utilities, outside the modelled core.
- `disconnect`, `healthCheck`, `getMemoryStats` and `getClient` of backend/config/redis.js:150-223: connection housekeeping, outside the modelled core.
- `getMe` and `logout` of backend/controllers/authController.js:168-191 and 248-269, and `/me` and `/logout` of backend/routes/auth.js:109-123: they read the user or answer a fixed message, outside the modelled core.
- `getMessageStatus`, `healthCheck` and `getStatus` of backend/services/smsService.js:166-237: Twilio queries, outside the modelled core.
- Validation.LoginRules: the password length counts characters. express-validator's `isLength` also leaves out the variation selectors U+FE0E and U+FE0F, which the model counts.
- AuthRoutes.LoginErrors: the same `isLength` length as Validation.LoginRules, with the same treatment of variation selectors.
- Vision.VisionService.DetectFaces: the dimensions sharp reports are taken to be positive, as they are for any image it decodes. A zero-sized image, on which the mock geometry would be `NaN`, is not modelled.
- AuthController: request fields are strings. A non-string `email` or `mobile`, on which the JavaScript would call string methods and throw, is not modelled.
- Strings.Lower: lower-cases ASCII letters only. JavaScript's full Unicode case mapping is not modelled.
- Api.RequestConfig: the configuration keeps the method, headers and body. The other keys that `...options` copies into it, such as `auth`, are dropped, because `fetch` ignores them.
- Api: of the endpoint wrappers (`authAPI`, `imageAPI`, `healthAPI`), only the options of `imageAPI.upload` are written out. The others differ only in their endpoint, method and `auth` flag.
- ImageUpload.ImageSelection.HandleFiles: previews are appended at once, in file order. In the source each preview arrives when its `FileReader` finishes.
- FaceDetectionPanel.DetectionPanel.Displayed: a detection result is always an object, so the `||` fallback of the source is modelled as "present or not". A falsy stored result is not represented.
- TraceForm.TracePage.Submit: the error elements the handler hides and shows are returned as `errors` rather than written to the page. The `mobileError` field keeps its earlier text.
- AnalysisPage.IsValidImageUrl: its own contract states only that a URL that does not parse is refused. The two ways a parsing URL is accepted are stated by `HostAccepted` and `UpperCaseExtensionAccepted`.
- AnalysisPage: the chat history stores the assistant's reply as its `Reply` value rather than its text. The scan counter animation, the preview display, the map, timeline and report steps and the PDF download are page animation and are not modelled.
- MainApp: the translation tables of main.jsx are a parameter of `T`. The camera (`startCamera`, `detectFacesInVideo`, `stopFaceDetection`, `capturePhoto`), the canvas and the mock faces are not modelled, because they are camera and drawing I/O.
- InputMarks: the particles, ripples, tilt and button animations of l.js are not modelled.
- The login page's redirect effect and the success message's three-second timer in Login.jsx are not modelled, because they are navigation and timing.
- Language.LanguageProvider.T: when the current language is an inherited name other than `__proto__`, `translations[language]` is a built-in function and what `t` then returns depends on the JavaScript host; the model names that value without resolving it.
- Validation.Sanitize: rewrites `email` only when it is present and not an array. How express-validator's `normalizeEmail` treats an absent field or each element of an array is not modelled, and those bodies are passed on unchanged.

## Findings

| source | as written | input that shows it | evidently intended | confidence | as-written member | corrected member |
|---|---|---|---|---|---|---|
| backend/controllers/imageController.js:5-124 | `detectFaces` is taken out of the vision service object, so it runs with `this` unbound and `this.logger` throws a TypeError on every call | any owned image whose file is on disk | the bound service call runs detection and the image is saved as processed | not executed | ImageController.AsWrittenNothingProcessed | ImageController.CorrectedOwnedOnDiskProcessed |
| backend/routes/images.js:7-93 | the route takes `detectFaces` out of the service object in the same way, so every detection rejects | any owned image id | each owned image is detected and saved | not executed | ImageRoutes.RouteAsWrittenNothingProcessed | ImageRoutes.CorrectedRouteAllDetected |
| backend/controllers/authController.js:6-30 | `sendSMS` is taken out of the SMS service object, so `this.isConfigured` throws and, in production, sending an OTP always answers 500 | any valid mobile in production | the code is sent and the request succeeds | not executed | AuthController.AsWrittenSendOtpFailsInProduction | AuthController.CorrectedSendOtpSucceedsInProduction |
| backend/routes/auth.js:7-27 | the route takes `sendSMS` out of the service object in the same way | any valid mobile in production | the code is sent and the route answers success | not executed | AuthRoutes.SendOtpRouteDetachedFails | AuthRoutes.SendOtpRouteBoundSucceeds |
| backend/routes/auth.js:59 | `verifyOTP` is not awaited, and the returned Promise is always truthy, so the OTP check never fails | a login with a wrong OTP | the awaited result decides, and a wrong code is refused | not executed | AuthRoutes.AsWrittenRouteIgnoresOtp | AuthRoutes.AwaitedRouteChecksOtp |
| frontend/src/context/LanguageContext.jsx:141-145 | the page direction is set from the `isRTL` value read before the update | switching from english to hindi | the direction follows the new language (`rtl` for hindi) | not executed | Language.AsWrittenDirLags | Language.CorrectedDirFollowsLanguage |
| frontend/src/services/api.js:88-91 | `headers: {}` is spread after the default headers, so it cannot remove `Content-Type: application/json` from the upload request | any image upload | a multipart body is sent without the JSON content type, so the browser can set the boundary | not executed | Api.AsWrittenUploadSendsJsonType | Api.CorrectedUploadOmitsJsonType |
| backend/models/Image.js:15-19 | `landmarks: [{ type: String, x: Number, y: Number }]` declares an array of strings, because an object with a `type` key inside an array gives that type's options, so a landmark object does not cast and `save()` fails for any face with landmarks | any detection result whose face has landmarks, such as every mock face | landmarks stored as sub-documents, declared `[{ type: { type: String }, x: Number, y: Number }]` | not executed | ImageController.AsWrittenLandmarkFacesFail | ImageSchema.CorrectedLandmarksAccepted |
