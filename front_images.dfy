/** The image objects the back end returns, as the front-end components see
    them: the `_id`, the `processed` flag and the stored
    `faceDetectionResults`. */
module FrontImages {
  import opened Wrappers

  /** A detection result; only its face count is of interest here. */
  datatype Detection = Detection(faceCount: int)

  datatype ImageItem = ImageItem(id: string, processed: bool, stored: Option<Detection>)

  /** The list without the images of the given id, order kept
      (frontend/src/components/Dashboard/Dashboard.jsx:44). */
  function WithoutId(images: seq<ImageItem>, id: string): (r: seq<ImageItem>)
    ensures |r| <= |images|
    ensures forall x :: x in r <==> x in images && x.id != id
  {
    if images == [] then []
    else (if images[0].id != id then [images[0]] else []) + WithoutId(images[1..], id)
  }

  /** Removing an id keeps the relative order of the rest: it distributes
      over concatenation. */
  lemma {:induction false} WithoutIdAppend(a: seq<ImageItem>, b: seq<ImageItem>, id: string)
    ensures WithoutId(a + b, id) == WithoutId(a, id) + WithoutId(b, id)
  {
    if a == [] {
      assert a + b == b;
    } else {
      assert (a + b)[1..] == a[1..] + b;
      WithoutIdAppend(a[1..], b, id);
    }
  }

  /** An id that does not occur leaves the list as it was. */
  lemma {:induction false} WithoutAbsentId(images: seq<ImageItem>, id: string)
    requires forall i :: 0 <= i < |images| ==> images[i].id != id
    ensures WithoutId(images, id) == images
  {
    if images != [] {
      WithoutAbsentId(images[1..], id);
    }
  }
}
