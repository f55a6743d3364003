/** The shapes of a face-detection result as the vision service produces it and
    as the image controller and routes pass it on. Confidences are integer
    hundredths (the service rounds every confidence to two decimals). */
module Faces {
  import opened Wrappers

  datatype BoundingBox = BoundingBox(x: int, y: int, width: int, height: int)

  datatype Landmark = Landmark(kind: string, x: int, y: int)

  datatype Face = Face(box: BoundingBox, confidence: int, landmarks: seq<Landmark>)

  /** The object `VisionService.detectFaces` resolves with. The mock leaves the
      last four fields unset; `detectFaces` adds the timing and dimensions, and
      its error path adds `error`. */
  datatype DetectorOutput = DetectorOutput(
    faceCount: int,
    faces: seq<Face>,
    confidence: int,
    apiProvider: string,
    processingTime: Option<int>,
    imageWidth: Option<int>,
    imageHeight: Option<int>,
    error: Option<string>)

  function Confidences(faces: seq<Face>): (cs: seq<int>)
    ensures |cs| == |faces|
    ensures forall i :: 0 <= i < |faces| ==> cs[i] == faces[i].confidence
  {
    if faces == [] then [] else [faces[0].confidence] + Confidences(faces[1..])
  }
}
