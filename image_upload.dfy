/** The selection list of frontend/src/components/ImageUpload/ImageUpload.jsx:
    the type and size filter, the ten-image bound, removing one file,
    clearing, and the upload guard. The previews are kept one per file, in
    file order; the FileReader that produces their data URLs is the
    function `dataUrl`. */
module ImageUpload {
  import opened Wrappers
  import opened FrontImages

  const ValidTypes: seq<string> := ["image/jpeg", "image/jpg", "image/png", "image/webp"]
  /** 5 MiB */
  const MaxSize := 5 * 1024 * 1024
  const MaxFiles := 10

  const TypeMessage := "Only JPEG, PNG, and WebP images are allowed"
  const SizeMessage := "File size must be less than 5MB"
  const TooManyMessage := "Maximum 10 images allowed"
  const NothingSelected := "Please select images to upload"
  const UploadFailed := "Upload failed. Please try again."
  const UploadOffline := "Upload failed. Please check your connection."

  /** A selected `File`: its name, MIME type and size in bytes. */
  datatype FileInfo = FileInfo(name: string, fileType: string, size: int)

  datatype Preview = Preview(file: FileInfo, url: string)

  /** Why the filter drops a file: the type is checked before the size. */
  function Rejection(f: FileInfo): (r: Option<string>)
    ensures r.None? <==> f.fileType in ValidTypes && f.size <= MaxSize
    ensures r.Some? ==> r.value == (if f.fileType !in ValidTypes then TypeMessage else SizeMessage)
  {
    if f.fileType !in ValidTypes then Some(TypeMessage)
    else if f.size > MaxSize then Some(SizeMessage)
    else None
  }

  predicate Accepted(f: FileInfo) { Rejection(f).None? }

  /** The files the filter keeps, in order. */
  function ValidFiles(fs: seq<FileInfo>): (r: seq<FileInfo>)
    ensures |r| <= |fs|
    ensures forall i :: 0 <= i < |r| ==> Accepted(r[i])
  {
    if fs == [] then []
    else ValidFiles(fs[..|fs| - 1]) + (if Accepted(fs[|fs| - 1]) then [fs[|fs| - 1]] else [])
  }

  /** The filter keeps exactly the accepted files and distributes over
      concatenation, so their order is kept. */
  lemma {:induction false} ValidFilesAppend(a: seq<FileInfo>, b: seq<FileInfo>)
    ensures ValidFiles(a + b) == ValidFiles(a) + ValidFiles(b)
    decreases |b|
  {
    if b == [] {
      assert a + b == a;
    } else {
      var b0 := b[..|b| - 1];
      assert (a + b)[..|a + b| - 1] == a + b0;
      assert (a + b)[|a + b| - 1] == b[|b| - 1];
      ValidFilesAppend(a, b0);
    }
  }

  lemma {:induction false} ValidFilesMembers(fs: seq<FileInfo>, f: FileInfo)
    ensures f in ValidFiles(fs) <==> f in fs && Accepted(f)
  {
    if fs != [] {
      var init := fs[..|fs| - 1];
      ValidFilesMembers(init, f);
      assert fs == init + [fs[|fs| - 1]];
    }
  }

  /** The error after the filter: each dropped file sets its message, so the
      last dropped file's message wins; with none dropped, `err` stays. */
  function LastRejection(fs: seq<FileInfo>, err: string): string {
    if fs == [] then err
    else
      var r := Rejection(fs[|fs| - 1]);
      if r.Some? then r.value else LastRejection(fs[..|fs| - 1], err)
  }

  /** The error left by a batch with at least one dropped file is the message
      of the last dropped one. */
  lemma {:induction false} LastRejectionIsLast(fs: seq<FileInfo>, err: string, k: nat)
    requires k < |fs| && !Accepted(fs[k]) && forall j :: k < j < |fs| ==> Accepted(fs[j])
    ensures LastRejection(fs, err) == Rejection(fs[k]).value
  {
    if k < |fs| - 1 {
      LastRejectionIsLast(fs[..|fs| - 1], err, k);
    }
  }

  function PreviewsOf(fs: seq<FileInfo>, dataUrl: FileInfo -> string): (ps: seq<Preview>)
    ensures |ps| == |fs| && forall i :: 0 <= i < |fs| ==> ps[i] == Preview(fs[i], dataUrl(fs[i]))
  {
    if fs == [] then [] else [Preview(fs[0], dataUrl(fs[0]))] + PreviewsOf(fs[1..], dataUrl)
  }

  /** The list without its element at `index`; an index outside the list
      removes nothing
      (frontend/src/components/ImageUpload/ImageUpload.jsx:93-94). */
  function RemoveAt<T>(s: seq<T>, index: int): (r: seq<T>)
    ensures 0 <= index < |s| ==> |r| == |s| - 1
    ensures 0 <= index < |s| ==> forall j :: 0 <= j < |r| ==> r[j] == (if j < index then s[j] else s[j + 1])
    ensures !(0 <= index < |s|) ==> r == s
  {
    if 0 <= index < |s| then s[..index] + s[index + 1..] else s
  }

  class ImageSelection {
    var files: seq<FileInfo>
    var previews: seq<Preview>
    var error: string
    var isUploading: bool

    /** At most ten files, each accepted, with one preview per file. */
    predicate Valid()
      reads this
    {
      |files| <= MaxFiles
      && (forall i :: 0 <= i < |files| ==> Accepted(files[i]))
      && |previews| == |files|
      && (forall i :: 0 <= i < |files| ==> previews[i].file == files[i])
    }

    constructor ()
      ensures files == [] && previews == [] && error == "" && !isUploading
      ensures Valid()
    {
      files := [];
      previews := [];
      error := "";
      isUploading := false;
    }

    /** `handleFiles(newFiles)`. No accepted file: the list is unchanged and
        the error is that of the last dropped file. Too many in total: the
        whole batch is refused. Otherwise the accepted files are appended. */
    method HandleFiles(newFiles: seq<FileInfo>, dataUrl: FileInfo -> string)
      requires Valid()
      modifies this
      ensures Valid() && isUploading == old(isUploading)
      ensures var valid := ValidFiles(newFiles);
        (valid == [] ==> files == old(files) && previews == old(previews) && error == LastRejection(newFiles, old(error)))
        && (valid != [] && |old(files)| + |valid| > MaxFiles ==>
              files == old(files) && previews == old(previews) && error == TooManyMessage)
        && (valid != [] && |old(files)| + |valid| <= MaxFiles ==>
              files == old(files) + valid && previews == old(previews) + PreviewsOf(valid, dataUrl) && error == "")
    {
      var valid: seq<FileInfo> := [];
      var err := error;
      var i := 0;
      while i < |newFiles|
        invariant 0 <= i <= |newFiles|
        invariant valid == ValidFiles(newFiles[..i])
        invariant err == LastRejection(newFiles[..i], error)
      {
        assert newFiles[..i + 1][..i] == newFiles[..i];
        var r := Rejection(newFiles[i]);
        if r.Some? {
          err := r.value;
        } else {
          valid := valid + [newFiles[i]];
        }
        i := i + 1;
      }
      assert newFiles[..i] == newFiles;
      if valid == [] {
        error := err;
        return;
      }
      if |files| + |valid| > MaxFiles {
        error := TooManyMessage;
        return;
      }
      error := "";
      files := files + valid;
      previews := previews + PreviewsOf(valid, dataUrl);
    }

    /** `removeFile(index)`: that position goes from both lists; an index
        outside the list removes nothing. */
    method RemoveFile(index: int)
      requires Valid()
      modifies this
      ensures Valid()
      ensures files == RemoveAt(old(files), index) && previews == RemoveAt(old(previews), index)
      ensures error == old(error) && isUploading == old(isUploading)
    {
      files := RemoveAt(files, index);
      previews := RemoveAt(previews, index);
    }

    method ClearAll()
      modifies this
      ensures files == [] && previews == [] && error == "" && isUploading == old(isUploading)
      ensures Valid()
    {
      files := [];
      previews := [];
      error := "";
    }

    /** `uploadImages()` with the outcome of `imageAPI.upload`: `None` when it
        throws, otherwise `result.images` (itself `None` when missing). An
        empty selection sets an error without calling the API; a result with
        images hands them on and clears the selection. */
    method UploadImages(outcome: Option<Option<seq<ImageItem>>>)
      returns (apiCalled: bool, sent: seq<FileInfo>, handed: Option<seq<ImageItem>>)
      requires Valid()
      modifies this
      ensures Valid()
      ensures apiCalled <==> old(files) != []
      ensures isUploading == (if apiCalled then false else old(isUploading))
      ensures !apiCalled ==> files == old(files) && previews == old(previews) && error == NothingSelected && handed == None
      ensures apiCalled ==> sent == old(files)
      ensures apiCalled && outcome.Some? && outcome.value.Some? ==>
        handed == outcome.value && files == [] && previews == [] && error == ""
      ensures apiCalled && !(outcome.Some? && outcome.value.Some?) ==>
        handed == None && files == old(files) && previews == old(previews)
        && error == (if outcome.None? then UploadOffline else UploadFailed)
    {
      if files == [] {
        error := NothingSelected;
        return false, [], None;
      }
      isUploading := true;
      error := "";
      apiCalled, sent, handed := true, files, None;
      if outcome.Some? && outcome.value.Some? {
        handed := outcome.value;
        ClearAll();
        error := "";
      } else if outcome.Some? {
        error := UploadFailed;
      } else {
        error := UploadOffline;
      }
      isUploading := false;
    }
  }
}
