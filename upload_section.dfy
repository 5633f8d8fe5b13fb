/**
 * An upload section: files chosen or dropped are appended to the list, files
 * can be removed by position, a flag follows dragging over the drop zone, and
 * the upload button is enabled only when there are files.
 */
module UploadSection {
  import opened Wrappers
  import opened Js
  import opened UploadPreviews

  class UploadSection {
    var files: seq<File>
    var previews: seq<string>
    var isDragging: bool

    /** Each preview belongs to the file at its position. */
    ghost predicate Valid()
      reads this
    {
      previews == Previews(files)
    }

    constructor ()
      ensures Valid() && files == [] && !isDragging
    {
      files := [];
      previews := [];
      isDragging := false;
    }

    /** `addFiles`: the new files go after the existing ones, each with its preview. */
    method AddFiles(newFiles: seq<File>)
      requires Valid()
      modifies this
      ensures Valid()
      ensures files == old(files) + newFiles
      ensures isDragging == old(isDragging)
    {
      MapAppend(files, newFiles, PreviewOf);
      files := files + newFiles;
      var added := BuildPreviews(newFiles);
      previews := previews + added;
    }

    /** `handleFileChange`: a chosen list, even an empty one, goes through `addFiles`. */
    method HandleFileChange(selected: Option<seq<File>>)
      requires Valid()
      modifies this
      ensures Valid()
      ensures files == old(files) + (if selected.Some? then selected.value else [])
      ensures isDragging == old(isDragging)
    {
      if selected.Some? {
        AddFiles(selected.value);
      }
    }

    /** `handleDrop`: dragging ends and the dropped files go through `addFiles`. */
    method HandleDrop(dropped: Option<seq<File>>)
      requires Valid()
      modifies this
      ensures Valid()
      ensures files == old(files) + (if dropped.Some? then dropped.value else [])
      ensures !isDragging
    {
      isDragging := false;
      if dropped.Some? {
        AddFiles(dropped.value);
      }
    }

    method HandleDragOver()
      modifies this
      ensures isDragging && files == old(files) && previews == old(previews)
    {
      isDragging := true;
    }

    method HandleDragLeave()
      modifies this
      ensures !isDragging && files == old(files) && previews == old(previews)
    {
      isDragging := false;
    }

    /** `removeFile(index)`: the file and its preview leave together; the rest keep their order. */
    method RemoveFile(index: int)
      requires Valid()
      modifies this
      ensures Valid()
      ensures files == WithoutIndex(old(files), index)
      ensures isDragging == old(isDragging)
    {
      RemoveKeepsAlignment(files, index);
      files := WithoutIndex(files, index);
      previews := WithoutIndex(previews, index);
    }

    function UploadDisabled(): bool
      reads this
    {
      |files| == 0
    }

    function UploadLabel(): string
      reads this
    {
      UploadCaption(|files|)
    }
  }

  /** The upload button's caption for a number of files. */
  function UploadCaption(count: nat): (caption: string)
    ensures count == 0 ==> caption == "Upload "
    ensures count > 0 ==>
      && |caption| >= 10 && caption[..8] == "Upload (" && caption[|caption| - 1] == ')'
      && (forall i :: 8 <= i < |caption| - 1 ==> IsDigit(caption[i]))
      && DecimalValue(caption[8..|caption| - 1]) == count
  {
    if count > 0 then
      var digits := DecimalString(count);
      var caption := "Upload " + ("(" + digits + ")");
      assert caption[8..|caption| - 1] == digits;
      caption
    else
      "Upload " + ""
  }
}
