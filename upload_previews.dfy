/**
 * What the two upload components share: the selected files, the preview shown
 * beside each (an image's data URL, an empty placeholder otherwise) and
 * removal by position. Also the preview list as the components build it,
 * which does not line up with the files.
 */
module UploadPreviews {
  import opened Wrappers
  import opened Base64

  /** A browser `File`: its name, its MIME type (`file.type`) and its bytes. */
  datatype File = File(name: string, mimeType: string, content: seq<Byte>)

  /** `file.type.startsWith("image/")`. */
  predicate IsImage(f: File)
  {
    "image/" <= f.mimeType
  }

  /** The preview of one file: what `readAsDataURL` yields for an image, "" for any other file. */
  function PreviewOf(f: File): (p: string)
    ensures p == "" <==> !IsImage(f)
  {
    if IsImage(f) then DataUrl(f.mimeType, Encode(f.content)) else ""
  }

  /** An image's preview carries its type and bytes, and reads back as them. */
  lemma ImagePreviewReadsBack(f: File)
    requires IsImage(f) && ',' !in f.mimeType
    ensures ParseDataUrl(PreviewOf(f)) == Some((f.mimeType, f.content))
  {
    DataUrlRoundTrip(f.mimeType, f.content);
  }

  /** `s.map(f)`. */
  function MapSeq<A, B>(s: seq<A>, f: A -> B): (r: seq<B>)
    ensures |r| == |s|
    ensures forall i :: 0 <= i < |s| ==> r[i] == f(s[i])
  {
    if s == [] then [] else MapSeq(s[..|s| - 1], f) + [f(s[|s| - 1])]
  }

  /** Mapping a prefix one element longer. */
  lemma MapSnoc<A, B>(s: seq<A>, k: nat, f: A -> B)
    requires k < |s|
    ensures MapSeq(s[..k + 1], f) == MapSeq(s[..k], f) + [f(s[k])]
  {
    assert s[..k + 1][..k] == s[..k];
  }

  lemma MapAppend<A, B>(a: seq<A>, b: seq<A>, f: A -> B)
    ensures MapSeq(a + b, f) == MapSeq(a, f) + MapSeq(b, f)
  {
    forall i | 0 <= i < |a + b| ensures MapSeq(a + b, f)[i] == (MapSeq(a, f) + MapSeq(b, f))[i] {
      if i < |a| {
        assert (a + b)[i] == a[i];
      } else {
        assert (a + b)[i] == b[i - |a|];
      }
    }
  }

  /** The previews aligned with the files: position `i` belongs to `files[i]`. */
  function Previews(files: seq<File>): seq<string>
  {
    MapSeq(files, PreviewOf)
  }

  /** `s.filter((_, i) => i !== index)`: drop the element at `index`, if there is one. */
  function WithoutIndex<T>(s: seq<T>, index: int): (r: seq<T>)
  {
    if s == [] then []
    else (if index == 0 then [] else [s[0]]) + WithoutIndex(s[1..], index - 1)
  }

  /** Removal by position drops exactly that element and keeps the rest in order; an index out of range removes nothing. */
  lemma {:induction false} WithoutIndexSlices<T>(s: seq<T>, index: int)
    ensures 0 <= index < |s| ==> WithoutIndex(s, index) == s[..index] + s[index + 1..]
    ensures !(0 <= index < |s|) ==> WithoutIndex(s, index) == s
  {
    if s != [] {
      WithoutIndexSlices(s[1..], index - 1);
      if 0 < index < |s| {
        assert s[..index] == [s[0]] + s[1..][..index - 1];
        assert s[index + 1..] == s[1..][index..];
      } else if index == 0 {
        assert s[1..] == s[..0] + s[0 + 1..];
      } else {
        assert s == [s[0]] + s[1..];
      }
    }
  }

  /** Removing the same position from a list and from its image under `f` keeps them aligned. */
  lemma MapWithoutIndex<A, B>(s: seq<A>, index: int, f: A -> B)
    ensures WithoutIndex(MapSeq(s, f), index) == MapSeq(WithoutIndex(s, index), f)
  {
    WithoutIndexSlices(s, index);
    WithoutIndexSlices(MapSeq(s, f), index);
    if 0 <= index < |s| {
      MapAppend(s[..index], s[index + 1..], f);
      assert MapSeq(s, f)[..index] == MapSeq(s[..index], f);
      assert MapSeq(s, f)[index + 1..] == MapSeq(s[index + 1..], f);
    }
  }

  /**
   * The `forEach` over newly chosen files: one preview per file, in the
   * files' order.
   */
  method BuildPreviews(newFiles: seq<File>) returns (added: seq<string>)
    ensures |added| == |newFiles|
    ensures forall i :: 0 <= i < |newFiles| ==> (added[i] == "" <==> !IsImage(newFiles[i]))
    ensures added == Previews(newFiles)
  {
    added := [];
    var k := 0;
    while k < |newFiles|
      invariant 0 <= k <= |newFiles|
      invariant added == MapSeq(newFiles[..k], PreviewOf)
    {
      MapSnoc(newFiles, k, PreviewOf);
      added := added + [PreviewOf(newFiles[k])];
      k := k + 1;
    }
    assert newFiles[..k] == newFiles;
  }

  /** Removing the same position from files and previews keeps them aligned. */
  lemma RemoveKeepsAlignment(files: seq<File>, index: int)
    ensures WithoutIndex(Previews(files), index) == Previews(WithoutIndex(files, index))
  {
    MapWithoutIndex(files, index, PreviewOf);
  }

  // --------------------------------------------- the previews as built

  /** The placeholders pushed synchronously, one per non-image file, in order. */
  function Placeholders(files: seq<File>): (r: seq<string>)
    ensures forall i :: 0 <= i < |r| ==> r[i] == ""
  {
    if files == [] then []
    else Placeholders(files[..|files| - 1]) + (if IsImage(files[|files| - 1]) then [] else [""])
  }

  /** The image previews, pushed later by the reader callbacks; here in file order, the most favourable order. */
  function ImagePreviews(files: seq<File>): seq<string>
  {
    if files == [] then []
    else ImagePreviews(files[..|files| - 1]) + (if IsImage(files[|files| - 1]) then [PreviewOf(files[|files| - 1])] else [])
  }

  /**
   * The preview list once every reader has finished, as the components
   * build it: the placeholders come first, and every image's preview follows
   * them.
   */
  function PreviewsAsWritten(files: seq<File>): seq<string>
  {
    Placeholders(files) + ImagePreviews(files)
  }

  /**
   * An image followed by a text file: the list as built puts the placeholder
   * at the image's position, so the image shows no thumbnail, and removing the
   * image removes the placeholder and leaves the image's preview beside the
   * text file.
   */
  lemma PreviewsMisaligned()
    ensures var files := [File("a.png", "image/png", []), File("b.txt", "text/plain", [])];
      && PreviewsAsWritten(files) != Previews(files)
      && PreviewsAsWritten(files)[0] == ""
      && IsImage(files[0])
      && WithoutIndex(PreviewsAsWritten(files), 0) == [PreviewOf(files[0])]
      && WithoutIndex(files, 0) == [files[1]]
  {
    var files := [File("a.png", "image/png", []), File("b.txt", "text/plain", [])];
    assert files[..1] == [files[0]] && files[..0] == [];
    assert IsImage(files[0]);
    assert !IsImage(files[1]) by {
      assert files[1].mimeType[0] == 't';
    }
    assert Placeholders(files) == [""];
    assert ImagePreviews(files) == [PreviewOf(files[0])];
    assert PreviewOf(files[0]) != "";
    assert PreviewsAsWritten(files) == ["", PreviewOf(files[0])];
    var url := PreviewOf(files[0]);
    assert ["", url][1..] == [url] && [url][1..] == [];
    assert WithoutIndex([url], -1) == [url] + WithoutIndex([], -2);
    assert files[1..] == [files[1]] && [files[1]][1..] == [];
    assert WithoutIndex([files[1]], -1) == [files[1]] + WithoutIndex([], -2);
  }

  /** The list as built is aligned when no image comes before a non-image file. */
  lemma {:induction false} PreviewsAsWrittenAlignedWhenImagesLast(files: seq<File>)
    requires forall i, j :: 0 <= i < j < |files| && IsImage(files[i]) ==> IsImage(files[j])
    ensures PreviewsAsWritten(files) == Previews(files)
  {
    if files != [] {
      var init := files[..|files| - 1];
      var last := files[|files| - 1];
      PreviewsAsWrittenAlignedWhenImagesLast(init);
      if IsImage(last) {
        assert PreviewsAsWritten(files) == Placeholders(init) + (ImagePreviews(init) + [PreviewOf(last)]);
      } else {
        forall i | 0 <= i < |init| ensures !IsImage(init[i]) {
          assert init[i] == files[i];
        }
        NoImagePreviews(init);
        assert PreviewsAsWritten(files) == Placeholders(init) + [""];
        assert PreviewsAsWritten(init) == Placeholders(init);
      }
    }
  }

  /** A list without images has no image previews. */
  lemma {:induction false} NoImagePreviews(files: seq<File>)
    requires forall i :: 0 <= i < |files| ==> !IsImage(files[i])
    ensures ImagePreviews(files) == []
  {
    if files != [] {
      NoImagePreviews(files[..|files| - 1]);
    }
  }
}
