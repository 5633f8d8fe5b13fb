/**
 * The upload dialog button: a selection replaces the file list, files can be
 * removed by position, and the simulated upload clears everything and shows a
 * success notice. The two timers are separate steps.
 */
module UploadButton {
  import opened UploadPreviews

  /** `getFileCategory`: images are photos, a PDF is a health document, anything else is diet. */
  function GetFileCategory(f: File): (c: string)
    ensures c == "photo" || c == "health" || c == "diet"
    ensures c == "photo" <==> IsImage(f)
    ensures c == "health" <==> f.mimeType == "application/pdf"
    ensures c == "diet" <==> !IsImage(f) && f.mimeType != "application/pdf"
  {
    if IsImage(f) then
      assert f.mimeType[0] == 'i';
      "photo"
    else if f.mimeType == "application/pdf" then "health"
    else "diet"
  }

  class UploadButton {
    var files: seq<File>
    var previews: seq<string>
    var isUploading: bool
    var open: bool
    var showSuccess: bool

    /** Each preview belongs to the file at its position. */
    ghost predicate Valid()
      reads this
    {
      previews == Previews(files)
    }

    constructor ()
      ensures Valid() && files == [] && !isUploading && !open && !showSuccess
    {
      files := [];
      previews := [];
      isUploading := false;
      open := false;
      showSuccess := false;
    }

    /**
     * `handleFileChange`: a non-empty selection replaces the files and
     * rebuilds the previews from scratch; an absent or empty one changes
     * nothing.
     */
    method HandleFileChange(selected: Wrappers.Option<seq<File>>)
      requires Valid()
      modifies this
      ensures Valid()
      ensures selected.Some? && selected.value != [] ==> files == selected.value
      ensures selected.None? || selected.value == [] ==> files == old(files)
      ensures isUploading == old(isUploading) && open == old(open) && showSuccess == old(showSuccess)
    {
      if selected.Some? && selected.value != [] {
        var newFiles := selected.value;
        files := newFiles;
        previews := [];
        var added := BuildPreviews(newFiles);
        assert previews + added == added;
        previews := previews + added;
      }
    }

    /** `removeFile(index)`: the file and its preview leave together; the rest keep their order. */
    method RemoveFile(index: int)
      requires Valid()
      modifies this
      ensures Valid()
      ensures files == WithoutIndex(old(files), index)
      ensures isUploading == old(isUploading) && open == old(open) && showSuccess == old(showSuccess)
    {
      RemoveKeepsAlignment(files, index);
      files := WithoutIndex(files, index);
      previews := WithoutIndex(previews, index);
    }

    /** `uploadFiles`: nothing with no files; otherwise the upload starts. */
    method UploadFiles()
      requires Valid()
      modifies this
      ensures Valid() && files == old(files)
      ensures isUploading == (old(isUploading) || files != [])
      ensures open == old(open) && showSuccess == old(showSuccess)
    {
      if |files| == 0 {
        return;
      }
      isUploading := true;
    }

    /** The upload timer: files and previews are emptied, the dialog closes and the notice shows. */
    method UploadFinished()
      modifies this
      ensures Valid() && files == [] && !isUploading && !open && showSuccess
    {
      isUploading := false;
      files := [];
      previews := [];
      open := false;
      showSuccess := true;
    }

    /** The notice timer. */
    method SuccessExpired()
      modifies this
      ensures !showSuccess
      ensures files == old(files) && previews == old(previews) && isUploading == old(isUploading) && open == old(open)
    {
      showSuccess := false;
    }
  }
}
