/** The image list of frontend/src/components/Dashboard/Dashboard.jsx:
    loading it on mount, putting uploaded images in front, and deleting one
    image after the server has agreed. The API calls are given by how they
    settle. */
module Dashboard {
  import opened Wrappers
  import opened FrontImages

  const UploadTab := "upload"
  const DetectionTab := "detection"
  const LoadFailed := "Failed to load images"
  const DeleteFailed := "Failed to delete image"

  /** How `imageAPI.getImages()` settles: the response's `images` (`None`
      when missing), or a throw. */
  datatype LoadOutcome = Loaded(images: Option<seq<ImageItem>>) | LoadThrew

  class DashboardState {
    var activeTab: string
    var images: seq<ImageItem>
    var isLoading: bool
    var error: string

    /** Mounting: the initial state, then the one `loadImages` of the mount
        effect. */
    constructor (mountLoad: LoadOutcome)
      ensures activeTab == UploadTab && !isLoading
      ensures mountLoad.Loaded? ==> images == mountLoad.images.GetOr([]) && error == ""
      ensures mountLoad.LoadThrew? ==> images == [] && error == LoadFailed
    {
      activeTab := UploadTab;
      images := [];
      isLoading := false;
      error := "";
      new;
      LoadImages(mountLoad);
    }

    /** `loadImages()`: the list becomes `result.images || []`; a throw sets
        the error and keeps the list; loading always ends. */
    method LoadImages(outcome: LoadOutcome)
      modifies this
      ensures !isLoading && activeTab == old(activeTab)
      ensures outcome.Loaded? ==> images == outcome.images.GetOr([]) && error == old(error)
      ensures outcome.LoadThrew? ==> images == old(images) && error == LoadFailed
    {
      isLoading := true;
      match outcome {
        case Loaded(result) =>
          images := result.GetOr([]);
        case LoadThrew =>
          error := LoadFailed;
      }
      isLoading := false;
    }

    /** `handleImageUpload(newImages)`: the new images, in their order, go in
        front and the detection tab opens. */
    method HandleImageUpload(newImages: seq<ImageItem>)
      modifies this
      ensures images == newImages + old(images) && activeTab == DetectionTab
      ensures isLoading == old(isLoading) && error == old(error)
    {
      images := newImages + images;
      activeTab := DetectionTab;
    }

    /** `handleImageDelete(imageId)` with whether `imageAPI.deleteImage`
        resolved: only then do the images with that id leave the list. */
    method HandleImageDelete(imageId: string, deleted: bool)
      modifies this
      ensures deleted ==> images == WithoutId(old(images), imageId) && error == old(error)
      ensures !deleted ==> images == old(images) && error == DeleteFailed
      ensures activeTab == old(activeTab) && isLoading == old(isLoading)
    {
      if deleted {
        images := WithoutId(images, imageId);
      } else {
        error := DeleteFailed;
      }
    }
  }

  /** Deleting an image that was just uploaded leaves the list as it was
      before the upload, when the id occurs once among the uploaded images
      and not among the earlier ones. */
  lemma UploadThenDelete(newImage: ImageItem, before: seq<ImageItem>)
    requires forall i :: 0 <= i < |before| ==> before[i].id != newImage.id
    ensures WithoutId([newImage] + before, newImage.id) == before
  {
    WithoutIdAppend([newImage], before, newImage.id);
    WithoutAbsentId(before, newImage.id);
    assert WithoutId([newImage], newImage.id) == [] + WithoutId([], newImage.id);
  }
}
