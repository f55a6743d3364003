/** The detection panel of
    frontend/src/components/FaceDetection/FaceDetection.jsx: which images the
    auto-process effect sends, the set of images being processed, the merge
    of returned results, and which results are shown. The asynchronous
    handler is split at its `await`: `BeginDetection` runs before the API
    call and `EndDetection` after it settles. */
module FaceDetectionPanel {
  import opened Wrappers
  import opened FrontImages

  const DetectFailed := "Face detection failed. Please try again."

  function Elems(ids: seq<string>): set<string> {
    set x | x in ids
  }

  /** The ids the auto-process effect requests: those of the unprocessed
      images not already being processed, in list order
      (frontend/src/components/FaceDetection/FaceDetection.jsx:16). */
  function ToDetect(images: seq<ImageItem>, processing: set<string>): (ids: seq<string>)
    ensures |ids| <= |images|
  {
    if images == [] then []
    else
      (if !images[0].processed && images[0].id !in processing then [images[0].id] else [])
      + ToDetect(images[1..], processing)
  }

  /** Exactly the unprocessed images not already being processed are sent. */
  lemma {:induction false} ToDetectExactly(images: seq<ImageItem>, processing: set<string>, id: string)
    ensures id in ToDetect(images, processing) <==>
      id !in processing && exists i :: 0 <= i < |images| && images[i].id == id && !images[i].processed
  {
    if images != [] {
      ToDetectExactly(images[1..], processing, id);
      if id !in processing && exists i :: 0 <= i < |images| && images[i].id == id && !images[i].processed {
        var i :| 0 <= i < |images| && images[i].id == id && !images[i].processed;
        if i > 0 {
          assert images[1..][i - 1] == images[i];
        }
      }
    }
  }

  /** One entry of `result.results`. */
  datatype ResultItem = ResultItem(imageId: string, results: Option<Detection>, hasError: bool)

  predicate Usable(item: ResultItem) { item.results.Some? && !item.hasError }

  /** `newResults` after the `forEach`: each usable item is written under its
      id, so a later one overwrites an earlier one. */
  function NewResults(items: seq<ResultItem>): map<string, Detection> {
    if items == [] then map[]
    else
      var m := NewResults(items[..|items| - 1]);
      var last := items[|items| - 1];
      if Usable(last) then m[last.imageId := last.results.value] else m
  }

  /** An id gets a result exactly when some usable item carries it, and the
      result is that of the last such item. */
  lemma {:induction false} NewResultsLast(items: seq<ResultItem>, id: string)
    ensures id in NewResults(items) <==> exists i :: 0 <= i < |items| && items[i].imageId == id && Usable(items[i])
    ensures forall k :: 0 <= k < |items| && items[k].imageId == id && Usable(items[k])
                        && (forall j :: k < j < |items| ==> !(items[j].imageId == id && Usable(items[j]))) ==>
      id in NewResults(items) && NewResults(items)[id] == items[k].results.value
  {
    if items != [] {
      var init := items[..|items| - 1];
      NewResultsLast(init, id);
      forall i | 0 <= i < |init| ensures init[i] == items[i] { }
    }
  }

  /** How `imageAPI.detectFaces` settles: `result.results` (`None` when
      missing), or a throw. */
  datatype DetectOutcome = Returned(results: Option<seq<ResultItem>>) | Threw

  class DetectionPanel {
    var processing: set<string>
    var processedResults: map<string, Detection>
    var error: string

    constructor ()
      ensures processing == {} && processedResults == map[] && error == ""
    {
      processing := {};
      processedResults := map[];
      error := "";
    }

    /** The part of `handleFaceDetection(imageIds)` before the API call: an
        empty list returns at once; otherwise the ids join the processing
        set and the error is cleared. */
    method BeginDetection(ids: seq<string>) returns (started: bool)
      modifies this
      ensures started <==> ids != []
      ensures started ==> processing == old(processing) + Elems(ids) && error == ""
      ensures !started ==> processing == old(processing) && error == old(error)
      ensures processedResults == old(processedResults)
    {
      if ids == [] {
        return false;
      }
      processing := processing + Elems(ids);
      error := "";
      return true;
    }

    /** The part after the call settles: usable results are merged over the
        earlier ones and `onRefresh` runs (when given) for a response with
        results; a throw sets the error; in every case exactly the ids of
        this call leave the processing set. */
    method EndDetection(ids: seq<string>, outcome: DetectOutcome, hasOnRefresh: bool) returns (refreshed: bool)
      modifies this
      ensures processing == old(processing) - Elems(ids)
      ensures outcome.Returned? && outcome.results.Some? ==>
        processedResults == old(processedResults) + NewResults(outcome.results.value) && error == old(error)
      ensures !(outcome.Returned? && outcome.results.Some?) ==> processedResults == old(processedResults)
      ensures error == (if outcome.Threw? then DetectFailed else old(error))
      ensures refreshed <==> outcome.Returned? && outcome.results.Some? && hasOnRefresh
    {
      refreshed := false;
      if outcome.Returned? && outcome.results.Some? {
        var items := outcome.results.value;
        var newResults: map<string, Detection> := map[];
        var i := 0;
        while i < |items|
          invariant 0 <= i <= |items|
          invariant newResults == NewResults(items[..i])
        {
          assert items[..i + 1][..i] == items[..i];
          if items[i].results.Some? && !items[i].hasError {
            newResults := newResults[items[i].imageId := items[i].results.value];
          }
          i := i + 1;
        }
        assert items[..i] == items;
        processedResults := processedResults + newResults;
        refreshed := hasOnRefresh;
      } else if outcome.Threw? {
        error := DetectFailed;
      }
      var j := 0;
      ghost var before, merged, err := processing, processedResults, error;
      while j < |ids|
        invariant 0 <= j <= |ids|
        invariant processing == before - Elems(ids[..j])
        invariant processedResults == merged && error == err
      {
        assert Elems(ids[..j + 1]) == Elems(ids[..j]) + {ids[j]} by {
          assert ids[..j + 1] == ids[..j] + [ids[j]];
        }
        processing := processing - {ids[j]};
        j := j + 1;
      }
      assert ids[..j] == ids;
    }

    /** The auto-process effect, when `images` changes: it requests detection
        for the ids `ToDetect` picks, if there are any. */
    method AutoProcess(images: seq<ImageItem>) returns (requested: seq<string>)
      modifies this
      ensures requested == ToDetect(images, old(processing))
      ensures requested != [] ==> processing == old(processing) + Elems(requested) && error == ""
      ensures requested == [] ==> processing == old(processing) && error == old(error)
      ensures processedResults == old(processedResults)
    {
      requested := ToDetect(images, processing);
      if requested != [] {
        var started := BeginDetection(requested);
      }
    }

    /** A whole `handleFaceDetection` call with nothing in between: an empty
        list changes nothing; otherwise the error is cleared and set again
        only by a throw, usable results are merged, `onRefresh` runs for a
        response with results, and the processing set ends without the
        call's ids. */
    method HandleFaceDetection(ids: seq<string>, outcome: DetectOutcome, hasOnRefresh: bool) returns (refreshed: bool)
      modifies this
      ensures ids != [] ==> processing == old(processing) - Elems(ids)
      ensures ids == [] ==> processing == old(processing) && processedResults == old(processedResults)
      ensures ids == [] ==> error == old(error)
      ensures ids != [] ==> error == (if outcome.Threw? then DetectFailed else "")
      ensures refreshed <==> ids != [] && outcome.Returned? && outcome.results.Some? && hasOnRefresh
      ensures ids != [] && outcome.Returned? && outcome.results.Some? ==>
        processedResults == old(processedResults) + NewResults(outcome.results.value)
      ensures ids != [] && !(outcome.Returned? && outcome.results.Some?) ==> processedResults == old(processedResults)
    {
      var started := BeginDetection(ids);
      if !started {
        return false;
      }
      refreshed := EndDetection(ids, outcome, hasOnRefresh);
      assert processing == (old(processing) + Elems(ids)) - Elems(ids);
    }

    /** The result shown for an image: the one detected in this session when
        there is one, else the stored one
        (frontend/src/components/FaceDetection/FaceDetection.jsx:158). */
    function Displayed(image: ImageItem): (r: Option<Detection>)
      reads this
      ensures image.id in processedResults ==> r == Some(processedResults[image.id])
      ensures image.id !in processedResults ==> r == image.stored
    {
      if image.id in processedResults then Some(processedResults[image.id]) else image.stored
    }
  }
}
