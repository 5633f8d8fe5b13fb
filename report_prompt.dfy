/**
 * The budgeted assembly of the report prompt in `GET` of the tips route:
 * a header, then every note newest first, then every uploaded file newest
 * first, each checked against the context ceiling; images and PDFs that still
 * fit are scheduled for download.
 *
 * The route estimates cost as `length / 4` against a ceiling of 20000. All
 * costs here are four times the route's, which keeps them integral: the
 * ceiling is 80000, an image allowance 3200 (800), a PDF allowance 6000
 * (1500), and a text costs its UTF-16 length.
 */
module ReportPrompt {
  import opened Wrappers
  import opened Js

  const Ceiling: nat := 80000
  const ImageAllowance: nat := 3200
  const PdfAllowance: nat := 6000

  /** A row of the notes table; `createdAt` is the ISO rendering of its timestamp. */
  datatype NoteRecord = NoteRecord(text: string, createdAt: string)

  /** A row of the uploaded-files table; `createdAt` is the ISO rendering of its timestamp. */
  datatype FileRecord = FileRecord(
    id: string,
    fileName: string,
    createdAt: string,
    category: Option<string>,
    subcategory: Option<string>,
    storagePath: Option<string>,
    mimeType: Option<string>)

  /** The estimated cost of a text, four times `text.length / 4`. */
  function Cost(s: string): nat
  {
    Utf16Length(s)
  }

  /** A nullable string column used as a condition: present and non-empty. */
  predicate Present(s: Option<string>)
  {
    s.Some? && s.value != ""
  }

  // ---------------------------------------------------------------- header

  function HeaderText(now: string): string
  {
    "Current Date & Time: " + now + "\nUser Health Data Context (sorted by timestamp where available):\n---\n"
  }

  // ----------------------------------------------------------------- notes

  const NotesHeading: string := "== Notes ==\n"
  const NoNotes: string := "No notes available.\n---\n"
  const NoteTruncatedMarker: string := "[Note Truncated - context limit]\n---\n"

  function NoteEntry(n: NoteRecord): string
  {
    "[Note Timestamp: " + n.createdAt + "]\n" + n.text + "\n---\n"
  }

  /** What the notes section holds for one note: its full entry, or the truncation marker. */
  datatype NotePiece = Included(note: NoteRecord) | NoteTruncated

  function NotePieceText(p: NotePiece): string
  {
    match p
    case Included(n) => NoteEntry(n)
    case NoteTruncated => NoteTruncatedMarker
  }

  /** The texts of the pieces, in order. */
  function NoteTexts(ps: seq<NotePiece>): seq<string>
  {
    if ps == [] then [] else NoteTexts(ps[..|ps| - 1]) + [NotePieceText(ps[|ps| - 1])]
  }

  /** The pieces in order, concatenated. */
  function RenderNotes(ps: seq<NotePiece>): string
  {
    Concat(NoteTexts(ps))
  }

  datatype NotesOutcome = NotesOutcome(pieces: seq<NotePiece>, count: int)

  /**
   * The notes walk: a note's entry is taken, and its cost added, when the sum
   * stays strictly below the ceiling; otherwise a marker takes its place and
   * the walk goes on with the next note.
   */
  function NotesWalk(notes: seq<NoteRecord>, count: int): NotesOutcome
  {
    if notes == [] then NotesOutcome([], count)
    else
      var entryCost := Cost(NoteEntry(notes[0]));
      if count + entryCost < Ceiling then
        var rest := NotesWalk(notes[1..], count + entryCost);
        NotesOutcome([Included(notes[0])] + rest.pieces, rest.count)
      else
        var rest := NotesWalk(notes[1..], count);
        NotesOutcome([NoteTruncated] + rest.pieces, rest.count)
  }

  /** The text of the notes section, given the cost counted before it. */
  function NotesText(notes: seq<NoteRecord>, count: int): string
  {
    if |notes| > 0 then NotesHeading + RenderNotes(NotesWalk(notes, count).pieces)
    else NotesHeading + NoNotes
  }

  /** The sum of the entry costs of the given notes. */
  function EntriesCost(notes: seq<NoteRecord>): nat
  {
    if notes == [] then 0 else Cost(NoteEntry(notes[0])) + EntriesCost(notes[1..])
  }

  /** Every note gets exactly one piece, in order: its own full entry or a marker. */
  lemma {:induction false} NotesIncludedOrTruncated(notes: seq<NoteRecord>, count: int)
    ensures var ps := NotesWalk(notes, count).pieces;
      |ps| == |notes| &&
      forall i :: 0 <= i < |ps| ==> ps[i] == Included(notes[i]) || ps[i] == NoteTruncated
  {
    if notes != [] {
      var c := Cost(NoteEntry(notes[0]));
      NotesIncludedOrTruncated(notes[1..], count + c);
      NotesIncludedOrTruncated(notes[1..], count);
    }
  }

  /**
   * Notes never take the count to or past the ceiling: the walk adds exactly
   * the costs of the entries it includes, and ends either where it started or
   * strictly below the ceiling.
   */
  lemma {:induction false} NotesStayBelowCeiling(notes: seq<NoteRecord>, count: int)
    ensures var w := NotesWalk(notes, count);
      w.count == count + EntriesCost(IncludedNotes(w.pieces)) &&
      (w.count == count || w.count < Ceiling)
  {
    if notes != [] {
      var c := Cost(NoteEntry(notes[0]));
      var w := NotesWalk(notes, count);
      if count + c < Ceiling {
        var rest := NotesWalk(notes[1..], count + c);
        NotesStayBelowCeiling(notes[1..], count + c);
        IncludedNotesCons(Included(notes[0]), rest.pieces);
        var inc := IncludedNotes(rest.pieces);
        assert ([notes[0]] + inc)[0] == notes[0] && ([notes[0]] + inc)[1..] == inc;
        assert EntriesCost([notes[0]] + inc) == c + EntriesCost(inc);
      } else {
        var rest := NotesWalk(notes[1..], count);
        NotesStayBelowCeiling(notes[1..], count);
        IncludedNotesCons(NoteTruncated, rest.pieces);
        assert [] + IncludedNotes(rest.pieces) == IncludedNotes(rest.pieces);
      }
    }
  }

  /** The notes whose entries were included, in order. */
  function IncludedNotes(ps: seq<NotePiece>): seq<NoteRecord>
  {
    if ps == [] then []
    else (if ps[0].Included? then [ps[0].note] else []) + IncludedNotes(ps[1..])
  }

  lemma IncludedNotesCons(p: NotePiece, ps: seq<NotePiece>)
    ensures IncludedNotes([p] + ps) == (if p.Included? then [p.note] else []) + IncludedNotes(ps)
  {
    assert ([p] + ps)[1..] == ps;
  }

  /** Walking two lists of notes one after the other is walking their concatenation. */
  lemma {:induction false} NotesWalkAppend(a: seq<NoteRecord>, b: seq<NoteRecord>, count: int)
    ensures var wa := NotesWalk(a, count);
      var wb := NotesWalk(b, wa.count);
      NotesWalk(a + b, count) == NotesOutcome(wa.pieces + wb.pieces, wb.count)
  {
    if a == [] {
      assert a + b == b;
    } else {
      assert (a + b)[0] == a[0] && (a + b)[1..] == a[1..] + b;
      var c := Cost(NoteEntry(a[0]));
      if count + c < Ceiling {
        NotesWalkAppend(a[1..], b, count + c);
      } else {
        NotesWalkAppend(a[1..], b, count);
      }
    }
  }

  /**
   * The decision for note i: its entry is included exactly when the count left
   * by the notes before it, plus the entry's cost, is below the ceiling. No
   * earlier marker stops the walk.
   */
  lemma NoteDecision(notes: seq<NoteRecord>, count: int, i: nat)
    requires i < |notes|
    ensures var before := NotesWalk(notes[..i], count).count;
      |NotesWalk(notes, count).pieces| == |notes| &&
      NotesWalk(notes, count).pieces[i] ==
        if before + Cost(NoteEntry(notes[i])) < Ceiling then Included(notes[i]) else NoteTruncated
  {
    assert notes == notes[..i] + notes[i..];
    NotesWalkAppend(notes[..i], notes[i..], count);
    NotesIncludedOrTruncated(notes[..i], count);
    NotesIncludedOrTruncated(notes, count);
    assert notes[i..][0] == notes[i];
  }

  /** When the entries all fit, every note is included verbatim and no marker appears. */
  lemma {:induction false} NotesAllFit(notes: seq<NoteRecord>, count: int)
    requires count + EntriesCost(notes) < Ceiling
    ensures NotesWalk(notes, count).pieces == seq(|notes|, i requires 0 <= i < |notes| => Included(notes[i]))
  {
    if notes != [] {
      NotesAllFit(notes[1..], count + Cost(NoteEntry(notes[0])));
    }
  }

  /** A note that does not fit leaves a marker, and a later note that fits is still included. */
  lemma MarkerThenIncluded(count: int, long: NoteRecord, short: NoteRecord)
    requires count + Cost(NoteEntry(long)) >= Ceiling
    requires count + Cost(NoteEntry(short)) < Ceiling
    ensures NotesWalk([long, short], count).pieces == [NoteTruncated, Included(short)]
  {
    assert [long, short][0] == long && [long, short][1..] == [short];
    assert [short][0] == short && [short][1..] == [];
    var c := count + Cost(NoteEntry(short));
    assert NotesWalk([short], count) == NotesOutcome([Included(short)] + [], c);
    assert NotesWalk([long, short], count) == NotesOutcome([NoteTruncated] + [Included(short)], c);
  }

  /** Several notes can each leave a marker. */
  lemma SeveralMarkers(count: int, n1: NoteRecord, n2: NoteRecord)
    requires count + Cost(NoteEntry(n1)) >= Ceiling && count + Cost(NoteEntry(n2)) >= Ceiling
    ensures NotesWalk([n1, n2], count).pieces == [NoteTruncated, NoteTruncated]
  {
    assert [n1, n2][0] == n1 && [n1, n2][1..] == [n2];
    assert [n2][0] == n2 && [n2][1..] == [];
    assert NotesWalk([n2], count) == NotesOutcome([NoteTruncated] + [], count);
    assert NotesWalk([n1, n2], count) == NotesOutcome([NoteTruncated] + [NoteTruncated], count);
  }

  // ----------------------------------------------------------------- files

  const FilesHeading: string := "== Uploaded Files (metadata & content references) ==\n"
  const FileTruncatedMarker: string := "[File Truncated - context limit]\n---\n"

  function CategoryInfo(f: FileRecord): string
  {
    if Present(f.category) then
      "Category: " + f.category.value + (if Present(f.subcategory) then "/" + f.subcategory.value else "")
    else "Category: unknown"
  }

  function FileMetadata(f: FileRecord): string
  {
    "[File Name: " + f.fileName + ", Timestamp: " + f.createdAt
    + ", Type: " + (if Present(f.mimeType) then f.mimeType.value else "unknown")
    + ", " + CategoryInfo(f) + "]\n"
  }

  /** An image with a storage path: its MIME type starts with "image/". */
  predicate IsImageFile(f: FileRecord)
  {
    f.mimeType.Some? && "image/" <= f.mimeType.value && Present(f.storagePath)
  }

  /** A PDF with a storage path: its MIME type is exactly "application/pdf". */
  predicate IsPdfFile(f: FileRecord)
  {
    f.mimeType == Some("application/pdf") && Present(f.storagePath)
  }

  /** What happens to a listed file's content; `pending` is the number the PDF reference shows. */
  datatype Content = ImageIncluded | ImageSkipped | PdfIncluded(pending: nat) | PdfSkipped | NotProcessed

  predicate Schedules(c: Content)
  {
    c.ImageIncluded? || c.PdfIncluded?
  }

  function ContentText(c: Content): string
  {
    match c
    case ImageIncluded => "  (Image content included below)\n---\n"
    case ImageSkipped => "  (Image content skipped - context limit)\n---\n"
    case PdfIncluded(n) =>
      "  (PDF content included via file reference - ID: pending-upload-" + DecimalString(n) + ")\n---\n"
    case PdfSkipped => "  (PDF content skipped - context limit)\n---\n"
    case NotProcessed => "  (Content not processed for this file type)\n---\n"
  }

  /**
   * The content decision for a file, given the count after its metadata and
   * the number of downloads scheduled before it.
   */
  function Decide(f: FileRecord, count: int, scheduled: nat): (c: Content)
    ensures c.ImageIncluded? <==> IsImageFile(f) && count + ImageAllowance < Ceiling
    ensures c.ImageSkipped? <==> IsImageFile(f) && count + ImageAllowance >= Ceiling
    ensures c.PdfIncluded? <==> !IsImageFile(f) && IsPdfFile(f) && count + PdfAllowance < Ceiling
    ensures c.PdfIncluded? ==> c.pending == scheduled + 1
    ensures c.PdfSkipped? <==> !IsImageFile(f) && IsPdfFile(f) && count + PdfAllowance >= Ceiling
    ensures c.NotProcessed? <==> !IsImageFile(f) && !IsPdfFile(f)
  {
    if IsImageFile(f) then
      if count + ImageAllowance < Ceiling then ImageIncluded else ImageSkipped
    else if IsPdfFile(f) then
      if count + PdfAllowance < Ceiling then PdfIncluded(scheduled + 1) else PdfSkipped
    else NotProcessed
  }

  /** What the files section holds: a listed file with its content line, or the final marker. */
  datatype FilePiece = Listed(file: FileRecord, content: Content) | FilesTruncated

  /** The strings `GET` appends for a piece: a file's metadata then its content line, or the marker. */
  function FilePieceTexts(p: FilePiece): seq<string>
  {
    match p
    case Listed(f, c) => [FileMetadata(f), ContentText(c)]
    case FilesTruncated => [FileTruncatedMarker]
  }

  function FileTexts(ps: seq<FilePiece>): seq<string>
  {
    if ps == [] then [] else FileTexts(ps[..|ps| - 1]) + FilePieceTexts(ps[|ps| - 1])
  }

  function RenderFiles(ps: seq<FilePiece>): string
  {
    Concat(FileTexts(ps))
  }

  /** A download the route schedules: an image to inline, or a PDF to upload. */
  datatype Job = ImageJob(file: FileRecord) | PdfJob(file: FileRecord)

  function JobsOf(p: FilePiece): seq<Job>
  {
    match p
    case Listed(f, ImageIncluded) => [ImageJob(f)]
    case Listed(f, PdfIncluded(_)) => [PdfJob(f)]
    case _ => []
  }

  /** The scheduled downloads, in the order the pieces schedule them. */
  function Jobs(ps: seq<FilePiece>): seq<Job>
  {
    if ps == [] then [] else JobsOf(ps[0]) + Jobs(ps[1..])
  }

  datatype FilesOutcome = FilesOutcome(pieces: seq<FilePiece>, count: int)

  /** The cost of a file's metadata line. */
  function MetadataCostOf(f: FileRecord): nat
  {
    Cost(FileMetadata(f))
  }

  /**
   * The files walk, for a metadata cost and a content decision given as
   * parameters (FilesWalk supplies the route's own). Before each file the
   * count is compared with the ceiling; past it, a single marker ends the
   * section. Otherwise the metadata cost is added whether or not it fits, and
   * the content is decided on the new count and the number of downloads
   * scheduled so far. The image and PDF allowances are never added here: the
   * route adds them in download callbacks that run only after this walk.
   */
  function FilesWalkWith(
    files: seq<FileRecord>, metaCost: FileRecord -> nat, decide: (FileRecord, int, nat) -> Content,
    count: int, scheduled: nat): FilesOutcome
  {
    if files == [] then FilesOutcome([], count)
    else if count > Ceiling then FilesOutcome([FilesTruncated], count)
    else
      var after := count + metaCost(files[0]);
      var content := decide(files[0], after, scheduled);
      var rest := FilesWalkWith(files[1..], metaCost, decide, after, if Schedules(content) then scheduled + 1 else scheduled);
      FilesOutcome([Listed(files[0], content)] + rest.pieces, rest.count)
  }

  /** The walk the route performs. */
  function FilesWalk(files: seq<FileRecord>, count: int, scheduled: nat): FilesOutcome
  {
    FilesWalkWith(files, MetadataCostOf, Decide, count, scheduled)
  }

  function FilesText(files: seq<FileRecord>, count: int): string
  {
    FilesHeading + RenderFiles(FilesWalk(files, count, 0).pieces)
  }

  /** The costs of the given files, added up. */
  function SumCost(files: seq<FileRecord>, metaCost: FileRecord -> nat): nat
  {
    if files == [] then 0 else metaCost(files[0]) + SumCost(files[1..], metaCost)
  }

  /** The largest cost among the given files. */
  function MaxCost(files: seq<FileRecord>, metaCost: FileRecord -> nat): (m: nat)
    ensures forall i :: 0 <= i < |files| ==> metaCost(files[i]) <= m
  {
    if files == [] then 0
    else
      var c := metaCost(files[0]);
      var m := MaxCost(files[1..], metaCost);
      assert forall i :: 1 <= i < |files| ==> files[i] == files[1..][i - 1];
      if c > m then c else m
  }

  lemma JobsOfCount(p: FilePiece)
    ensures |JobsOf(p)| == if p.Listed? && Schedules(p.content) then 1 else 0
  {
  }

  lemma {:induction false} JobsAppend(a: seq<FilePiece>, b: seq<FilePiece>)
    ensures Jobs(a + b) == Jobs(a) + Jobs(b)
  {
    if a == [] {
      assert a + b == b;
    } else {
      assert (a + b)[0] == a[0] && (a + b)[1..] == a[1..] + b;
      JobsAppend(a[1..], b);
    }
  }

  lemma JobsCons(p: FilePiece, ps: seq<FilePiece>)
    ensures Jobs([p] + ps) == JobsOf(p) + Jobs(ps)
  {
    assert ([p] + ps)[0] == p && ([p] + ps)[1..] == ps;
  }

  lemma {:induction false} FilesWalkLength(
    files: seq<FileRecord>, metaCost: FileRecord -> nat, decide: (FileRecord, int, nat) -> Content,
    count: int, scheduled: nat)
    ensures |FilesWalkWith(files, metaCost, decide, count, scheduled).pieces| <= |files|
  {
    if files != [] && count <= Ceiling {
      var after := count + metaCost(files[0]);
      var content := decide(files[0], after, scheduled);
      FilesWalkLength(files[1..], metaCost, decide, after, if Schedules(content) then scheduled + 1 else scheduled);
    }
  }

  /**
   * The shape of the files section: piece i lists file i, and the marker, if
   * any, is the last piece and stands for a file that was not listed; without
   * a marker every file is listed.
   */
  lemma {:induction false} FilesShape(
    files: seq<FileRecord>, metaCost: FileRecord -> nat, decide: (FileRecord, int, nat) -> Content,
    count: int, scheduled: nat)
    ensures var ps := FilesWalkWith(files, metaCost, decide, count, scheduled).pieces;
      |ps| <= |files| &&
      (forall i :: 0 <= i < |ps| && ps[i].Listed? ==> ps[i].file == files[i]) &&
      (forall i :: 0 <= i < |ps| && ps[i].FilesTruncated? ==> i == |ps| - 1) &&
      (|ps| == |files| || (ps != [] && ps[|ps| - 1].FilesTruncated?))
  {
    if files != [] && count <= Ceiling {
      var after := count + metaCost(files[0]);
      var content := decide(files[0], after, scheduled);
      var s' := if Schedules(content) then scheduled + 1 else scheduled;
      var rest := FilesWalkWith(files[1..], metaCost, decide, after, s').pieces;
      FilesShape(files[1..], metaCost, decide, after, s');
      var ps := [Listed(files[0], content)] + rest;
      forall i | 0 <= i < |ps|
        ensures ps[i].Listed? ==> ps[i].file == files[i]
        ensures ps[i].FilesTruncated? ==> i == |ps| - 1
      {
        if i > 0 {
          assert ps[i] == rest[i - 1];
          assert files[i] == files[1..][i - 1];
        }
      }
      if rest != [] {
        assert ps[|ps| - 1] == rest[|rest| - 1];
      }
    }
  }

  /**
   * Where the marker stands: at file i exactly when the count before it (the
   * start plus the metadata of every earlier file) is past the ceiling.
   */
  lemma {:induction false} FileTruncatedAt(
    files: seq<FileRecord>, metaCost: FileRecord -> nat, decide: (FileRecord, int, nat) -> Content,
    count: int, scheduled: nat, i: nat)
    requires i < |FilesWalkWith(files, metaCost, decide, count, scheduled).pieces|
    ensures i < |files|
    ensures FilesWalkWith(files, metaCost, decide, count, scheduled).pieces[i].FilesTruncated?
      <==> count + SumCost(files[..i], metaCost) > Ceiling
  {
    FilesWalkLength(files, metaCost, decide, count, scheduled);
    if count > Ceiling {
      assert files[..0] == [];
    } else {
      var after := count + metaCost(files[0]);
      var content := decide(files[0], after, scheduled);
      var s' := if Schedules(content) then scheduled + 1 else scheduled;
      if i == 0 {
        assert files[..0] == [];
      } else {
        FileTruncatedAt(files[1..], metaCost, decide, after, s', i - 1);
        SumCostPrefix(files, metaCost, i);
      }
    }
  }

  /**
   * The content of a listed file i: decided on the count after its own
   * metadata (the start plus the metadata of files 0 to i) and the number of
   * downloads scheduled before it.
   */
  lemma {:induction false} FileContentAt(
    files: seq<FileRecord>, metaCost: FileRecord -> nat, decide: (FileRecord, int, nat) -> Content,
    count: int, scheduled: nat, i: nat)
    requires i < |FilesWalkWith(files, metaCost, decide, count, scheduled).pieces|
    requires FilesWalkWith(files, metaCost, decide, count, scheduled).pieces[i].Listed?
    ensures i < |files|
    ensures var ps := FilesWalkWith(files, metaCost, decide, count, scheduled).pieces;
      ps[i].content == decide(files[i], count + SumCost(files[..i + 1], metaCost), scheduled + |Jobs(ps[..i])|)
    decreases |files|, 1
  {
    FilesWalkLength(files, metaCost, decide, count, scheduled);
    if i == 0 {
      SumCostPrefix(files, metaCost, 1);
      assert files[1..][..0] == [];
    } else {
      FileContentShift(files, metaCost, decide, count, scheduled, i);
    }
  }

  /** The step of FileContentAt: position i of the walk is position i - 1 of the walk on the tail. */
  lemma {:induction false} FileContentShift(
    files: seq<FileRecord>, metaCost: FileRecord -> nat, decide: (FileRecord, int, nat) -> Content,
    count: int, scheduled: nat, i: nat)
    requires 0 < i < |files| && count <= Ceiling
    requires i < |FilesWalkWith(files, metaCost, decide, count, scheduled).pieces|
    requires FilesWalkWith(files, metaCost, decide, count, scheduled).pieces[i].Listed?
    ensures var ps := FilesWalkWith(files, metaCost, decide, count, scheduled).pieces;
      ps[i].content == decide(files[i], count + SumCost(files[..i + 1], metaCost), scheduled + |Jobs(ps[..i])|)
    decreases |files|, 0
  {
    var after := count + metaCost(files[0]);
    var content := decide(files[0], after, scheduled);
    var s' := if Schedules(content) then scheduled + 1 else scheduled;
    var rest := FilesWalkWith(files[1..], metaCost, decide, after, s').pieces;
    FileContentAt(files[1..], metaCost, decide, after, s', i - 1);
    SumCostPrefix(files, metaCost, i + 1);
    JobsPrefixCount(Listed(files[0], content), rest, i);
    assert files[i] == files[1..][i - 1];
  }

  lemma JobsPrefixCount(p: FilePiece, rest: seq<FilePiece>, i: nat)
    requires 0 < i <= |rest| + 1
    ensures |Jobs(([p] + rest)[..i])| == (if p.Listed? && Schedules(p.content) then 1 else 0) + |Jobs(rest[..i - 1])|
  {
    assert ([p] + rest)[..i] == [p] + rest[..i - 1];
    JobsCons(p, rest[..i - 1]);
  }

  lemma SumCostPrefix(files: seq<FileRecord>, metaCost: FileRecord -> nat, k: nat)
    requires 0 < k <= |files|
    ensures SumCost(files[..k], metaCost) == metaCost(files[0]) + SumCost(files[1..][..k - 1], metaCost)
  {
    assert files[..k][0] == files[0] && files[..k][1..] == files[1..][..k - 1];
  }

  /**
   * The count can pass the ceiling by at most one file's metadata: the walk
   * either leaves the count where it was or ends at most that far past it.
   */
  lemma {:induction false} FilesOvershoot(
    files: seq<FileRecord>, metaCost: FileRecord -> nat, decide: (FileRecord, int, nat) -> Content,
    count: int, scheduled: nat)
    ensures var w := FilesWalkWith(files, metaCost, decide, count, scheduled);
      w.count >= count && (w.count == count || w.count <= Ceiling + MaxCost(files, metaCost))
  {
    if files != [] && count <= Ceiling {
      var after := count + metaCost(files[0]);
      var content := decide(files[0], after, scheduled);
      FilesOvershoot(files[1..], metaCost, decide, after, if Schedules(content) then scheduled + 1 else scheduled);
      assert metaCost(files[0]) <= MaxCost(files, metaCost);
      MaxCostTail(files, metaCost);
    }
  }

  lemma MaxCostTail(files: seq<FileRecord>, metaCost: FileRecord -> nat)
    requires files != []
    ensures MaxCost(files[1..], metaCost) <= MaxCost(files, metaCost)
  {
  }

  /**
   * With a content decision that numbers a PDF one past the downloads
   * scheduled before it, each PDF reference shows its own position, counted
   * from 1, among the scheduled downloads.
   */
  lemma PdfPendingNumberWith(
    files: seq<FileRecord>, metaCost: FileRecord -> nat, decide: (FileRecord, int, nat) -> Content,
    count: int, i: nat)
    requires forall f, c, s: nat :: decide(f, c, s).PdfIncluded? ==> decide(f, c, s).pending == s + 1
    requires i < |FilesWalkWith(files, metaCost, decide, count, 0).pieces|
    requires FilesWalkWith(files, metaCost, decide, count, 0).pieces[i].Listed?
    requires FilesWalkWith(files, metaCost, decide, count, 0).pieces[i].content.PdfIncluded?
    ensures var ps := FilesWalkWith(files, metaCost, decide, count, 0).pieces;
      i < |files| && Jobs(ps[..i + 1]) == Jobs(ps[..i]) + [PdfJob(files[i])] && ps[i].content.pending == |Jobs(ps[..i + 1])|
  {
    var ps := FilesWalkWith(files, metaCost, decide, count, 0).pieces;
    FileContentAt(files, metaCost, decide, count, 0, i);
    FilesShape(files, metaCost, decide, count, 0);
    assert ps[..i + 1] == ps[..i] + [ps[i]];
    JobsSnoc(ps[..i], ps[i]);
    assert JobsOf(ps[i]) == [PdfJob(files[i])];
  }

  /** Each PDF reference the route writes shows its position, counted from 1, among the scheduled downloads. */
  lemma PdfPendingNumber(files: seq<FileRecord>, count: int, i: nat)
    requires i < |FilesWalk(files, count, 0).pieces|
    requires FilesWalk(files, count, 0).pieces[i].Listed?
    requires FilesWalk(files, count, 0).pieces[i].content.PdfIncluded?
    ensures var ps := FilesWalk(files, count, 0).pieces;
      i < |files| && Jobs(ps[..i + 1]) == Jobs(ps[..i]) + [PdfJob(files[i])] && ps[i].content.pending == |Jobs(ps[..i + 1])|
  {
    PdfPendingNumberWith(files, MetadataCostOf, Decide, count, i);
  }

  // ------------------------------------------------------------- assembly

  /** A part of the user message: text, an inlined image, or a reference to an uploaded file. */
  datatype Part = TextPart(text: string) | ImagePart(url: string, detail: string) | FilePart(fileId: string)

  /** The counter the notes start from: the header's cost. */
  function HeaderCost(now: string): nat
  {
    Cost(HeaderText(now))
  }

  /** The counter the files start from: the header plus the included notes. */
  function CountAfterNotes(now: string, notes: seq<NoteRecord>): int
  {
    NotesWalk(notes, HeaderCost(now)).count
  }

  /** The three text parts, in the order the route pushes them. */
  function TextParts(now: string, notes: seq<NoteRecord>, files: seq<FileRecord>): seq<Part>
  {
    [ TextPart(HeaderText(now)),
      TextPart(NotesText(notes, HeaderCost(now))),
      TextPart(FilesText(files, CountAfterNotes(now, notes))) ]
  }

  /** The downloads the route schedules, in order. */
  function PlannedJobs(now: string, notes: seq<NoteRecord>, files: seq<FileRecord>): seq<Job>
  {
    Jobs(FilesWalk(files, CountAfterNotes(now, notes), 0).pieces)
  }

  /**
   * The notes loop of `GET`: the heading, then each note's entry or a marker,
   * with the running count. The source's `return` inside the `forEach`
   * callback leaves only that note's iteration, so the loop goes on.
   */
  lemma NotesWalkSnoc(notes: seq<NoteRecord>, i: nat, count: int)
    requires i < |notes|
    ensures var w := NotesWalk(notes[..i], count);
      var c := Cost(NoteEntry(notes[i]));
      NotesWalk(notes[..i + 1], count) ==
        if w.count + c < Ceiling then NotesOutcome(w.pieces + [Included(notes[i])], w.count + c)
        else NotesOutcome(w.pieces + [NoteTruncated], w.count)
  {
    assert notes[..i + 1] == notes[..i] + [notes[i]];
    NotesWalkAppend(notes[..i], [notes[i]], count);
    assert [notes[i]][1..] == [];
  }

  lemma TextsSnoc(texts: seq<string>, done: seq<NotePiece>, p: NotePiece)
    requires texts == [NotesHeading] + NoteTexts(done)
    ensures texts + [NotePieceText(p)] == [NotesHeading] + NoteTexts(done + [p])
    ensures Concat(texts + [NotePieceText(p)]) == Concat(texts) + NotePieceText(p)
  {
    assert (done + [p])[..|done|] == done;
    Extend(texts, NotePieceText(p));
  }

  /** One note of the notes loop: the walk, the texts and the rendered text each grow by that note's piece. */
  lemma NotesLoopStep(
    notes: seq<NoteRecord>, count0: int, i: nat, done: seq<NotePiece>, count: int, texts: seq<string>,
    p: NotePiece, count': int)
    requires i < |notes|
    requires NotesWalk(notes[..i], count0) == NotesOutcome(done, count)
    requires texts == [NotesHeading] + NoteTexts(done)
    requires p == if count + Cost(NoteEntry(notes[i])) < Ceiling then Included(notes[i]) else NoteTruncated
    requires count' == if p.Included? then count + Cost(NoteEntry(notes[i])) else count
    ensures NotesWalk(notes[..i + 1], count0) == NotesOutcome(done + [p], count')
    ensures texts + [NotePieceText(p)] == [NotesHeading] + NoteTexts(done + [p])
    ensures Concat(texts + [NotePieceText(p)]) == Concat(texts) + NotePieceText(p)
  {
    NotesWalkSnoc(notes, i, count0);
    TextsSnoc(texts, done, p);
  }

  method AppendNotes(notes: seq<NoteRecord>, count0: int) returns (notesText: string, count: int)
    ensures notesText == NotesText(notes, count0)
    ensures count == NotesWalk(notes, count0).count
  {
    count := count0;
    ghost var notesDone: seq<NotePiece> := [];
    ghost var texts: seq<string> := [NotesHeading];
    notesText := NotesHeading;
    assert [NotesHeading][..0] == [];
    assert notes[..0] == [];
    if |notes| > 0 {
      var i := 0;
      while i < |notes|
        invariant 0 <= i <= |notes|
        invariant NotesWalk(notes[..i], count0) == NotesOutcome(notesDone, count)
        invariant notesText == Concat(texts)
        invariant texts == [NotesHeading] + NoteTexts(notesDone)
      {
        var noteEntry := NoteEntry(notes[i]);
        ghost var p := if count + Cost(noteEntry) < Ceiling then Included(notes[i]) else NoteTruncated;
        ghost var count' := if p.Included? then count + Cost(noteEntry) else count;
        NotesLoopStep(notes, count0, i, notesDone, count, texts, p, count');
        if count + Cost(noteEntry) < Ceiling {
          notesText := notesText + noteEntry;
          count := count + Cost(noteEntry);
        } else {
          notesText := notesText + NoteTruncatedMarker;
        }
        texts := texts + [NotePieceText(p)];
        notesDone := notesDone + [p];
        i := i + 1;
      }
      assert notes[..i] == notes;
      ConcatCons(NotesHeading, NoteTexts(notesDone));
    } else {
      notesText := notesText + NoNotes;
    }
  }

  lemma FileTextsSnoc(texts: seq<string>, done: seq<FilePiece>, p: FilePiece)
    requires texts == [FilesHeading] + FileTexts(done)
    ensures texts + FilePieceTexts(p) == [FilesHeading] + FileTexts(done + [p])
  {
    assert (done + [p])[..|done|] == done;
  }

  lemma FileTextsListed(texts: seq<string>, done: seq<FilePiece>, f: FileRecord, c: Content)
    requires texts == [FilesHeading] + FileTexts(done)
    ensures texts + [FileMetadata(f)] + [ContentText(c)] == [FilesHeading] + FileTexts(done + [Listed(f, c)])
  {
    assert (done + [Listed(f, c)])[..|done|] == done;
  }

  lemma JobsSnoc(done: seq<FilePiece>, p: FilePiece)
    ensures Jobs(done + [p]) == Jobs(done) + JobsOf(p)
  {
    JobsAppend(done, [p]);
    assert [p][1..] == [];
  }

  /** The walk on the suffix at `j` when the file there is listed with the given content. */
  lemma FilesWalkListed(
    files: seq<FileRecord>, metaCost: FileRecord -> nat, decide: (FileRecord, int, nat) -> Content,
    j: nat, count: int, scheduled: nat, content: Content)
    requires j < |files| && count <= Ceiling
    requires content == decide(files[j], count + metaCost(files[j]), scheduled)
    ensures var rest := FilesWalkWith(files[j + 1..], metaCost, decide, count + metaCost(files[j]), if Schedules(content) then scheduled + 1 else scheduled);
      FilesWalkWith(files[j..], metaCost, decide, count, scheduled) == FilesOutcome([Listed(files[j], content)] + rest.pieces, rest.count)
  {
    assert files[j..][0] == files[j] && files[j..][1..] == files[j + 1..];
  }

  /** The files loop's invariant is kept by a file that is listed. */
  lemma FilesStep(
    files: seq<FileRecord>, metaCost: FileRecord -> nat, decide: (FileRecord, int, nat) -> Content,
    full: FilesOutcome, j: nat, count: int, done: seq<FilePiece>, jobs: seq<Job>,
    content: Content, count': int, done': seq<FilePiece>, jobs': seq<Job>)
    requires j < |files| && count <= Ceiling
    requires done + FilesWalkWith(files[j..], metaCost, decide, count, |jobs|).pieces == full.pieces
    requires FilesWalkWith(files[j..], metaCost, decide, count, |jobs|).count == full.count
    requires jobs == Jobs(done)
    requires count' == count + metaCost(files[j])
    requires content == decide(files[j], count', |jobs|)
    requires done' == done + [Listed(files[j], content)]
    requires jobs' == jobs + JobsOf(Listed(files[j], content))
    ensures done' + FilesWalkWith(files[j + 1..], metaCost, decide, count', |jobs'|).pieces == full.pieces
    ensures FilesWalkWith(files[j + 1..], metaCost, decide, count', |jobs'|).count == full.count
    ensures jobs' == Jobs(done')
  {
    var piece := Listed(files[j], content);
    JobsOfCount(piece);
    var scheduled' := if Schedules(content) then |jobs| + 1 else |jobs|;
    assert |jobs'| == scheduled';
    FilesWalkListed(files, metaCost, decide, j, count, |jobs|, content);
    SnocThenAppend(done, piece, FilesWalkWith(files[j + 1..], metaCost, decide, count', scheduled').pieces);
    JobsSnoc(done, piece);
  }

  lemma SnocThenAppend<T>(a: seq<T>, x: T, b: seq<T>)
    ensures a + [x] + b == a + ([x] + b)
  {
  }


  /**
   * The content line of a listed file, given the count after its metadata:
   * an image or PDF that fits is scheduled for download, and a PDF's reference
   * shows the number of downloads scheduled so far, itself included.
   */
  method ScheduleContent(file: FileRecord, count: int, jobs: seq<Job>) returns (content: Content, jobs': seq<Job>)
    ensures content == Decide(file, count, |jobs|)
    ensures jobs' == jobs + JobsOf(Listed(file, content))
  {
    jobs' := jobs;
    if IsImageFile(file) {
      if count + ImageAllowance < Ceiling {
        jobs' := jobs' + [ImageJob(file)];
        content := ImageIncluded;
      } else {
        content := ImageSkipped;
      }
    } else if IsPdfFile(file) {
      if count + PdfAllowance < Ceiling {
        jobs' := jobs' + [PdfJob(file)];
        content := PdfIncluded(|jobs'|);
      } else {
        content := PdfSkipped;
      }
    } else {
      content := NotProcessed;
    }
  }

  /** What the files loop keeps: the walk's pieces so far, the text, the scheduled downloads and the count. */
  ghost predicate FilesLoopInv(
    files: seq<FileRecord>, metaCost: FileRecord -> nat, decide: (FileRecord, int, nat) -> Content,
    count0: int, j: int, count: int,
    done: seq<FilePiece>, jobs: seq<Job>, texts: seq<string>, filesText: string)
  {
    && 0 <= j <= |files|
    && done + FilesWalkWith(files[j..], metaCost, decide, count, |jobs|).pieces == FilesWalkWith(files, metaCost, decide, count0, 0).pieces
    && FilesWalkWith(files[j..], metaCost, decide, count, |jobs|).count == FilesWalkWith(files, metaCost, decide, count0, 0).count
    && filesText == Concat(texts)
    && texts == [FilesHeading] + FileTexts(done)
    && jobs == Jobs(done)
  }

  lemma FilesLoopStart(
    files: seq<FileRecord>, metaCost: FileRecord -> nat, decide: (FileRecord, int, nat) -> Content, count0: int)
    ensures FilesLoopInv(files, metaCost, decide, count0, 0, count0, [], [], [FilesHeading], FilesHeading)
  {
    assert files[0..] == files;
    assert [FilesHeading][..0] == [];
  }

  lemma FilesLoopListed(
    files: seq<FileRecord>, metaCost: FileRecord -> nat, decide: (FileRecord, int, nat) -> Content,
    count0: int, j: int, count: int,
    done: seq<FilePiece>, jobs: seq<Job>, texts: seq<string>, filesText: string,
    metadata: string, count': int, content: Content, jobs': seq<Job>)
    requires FilesLoopInv(files, metaCost, decide, count0, j, count, done, jobs, texts, filesText)
    requires j < |files| && count <= Ceiling
    requires metadata == FileMetadata(files[j]) && count' == count + metaCost(files[j])
    requires content == decide(files[j], count', |jobs|)
    requires jobs' == jobs + JobsOf(Listed(files[j], content))
    ensures FilesLoopInv(files, metaCost, decide, count0, j + 1, count',
      done + [Listed(files[j], content)], jobs',
      texts + [metadata] + [ContentText(content)],
      filesText + metadata + ContentText(content))
  {
    var f := files[j];
    FilesStep(files, metaCost, decide, FilesWalkWith(files, metaCost, decide, count0, 0), j, count, done, jobs,
      content, count', done + [Listed(f, content)], jobs');
    Extend(texts, metadata);
    Extend(texts + [metadata], ContentText(content));
    FileTextsListed(texts, done, f, content);
  }

  lemma FilesLoopStop(
    files: seq<FileRecord>, metaCost: FileRecord -> nat, decide: (FileRecord, int, nat) -> Content,
    count0: int, j: int, count: int,
    done: seq<FilePiece>, jobs: seq<Job>, texts: seq<string>, filesText: string)
    requires FilesLoopInv(files, metaCost, decide, count0, j, count, done, jobs, texts, filesText)
    requires j < |files| && count > Ceiling
    ensures filesText + FileTruncatedMarker == FilesHeading + RenderFiles(FilesWalkWith(files, metaCost, decide, count0, 0).pieces)
    ensures jobs == Jobs(FilesWalkWith(files, metaCost, decide, count0, 0).pieces)
    ensures count == FilesWalkWith(files, metaCost, decide, count0, 0).count
  {
    var full := FilesWalkWith(files, metaCost, decide, count0, 0);
    assert files[j..][0] == files[j];
    assert FilesWalkWith(files[j..], metaCost, decide, count, |jobs|) == FilesOutcome([FilesTruncated], count);
    JobsSnoc(done, FilesTruncated);
    Extend(texts, FileTruncatedMarker);
    FileTextsSnoc(texts, done, FilesTruncated);
    ConcatCons(FilesHeading, FileTexts(done + [FilesTruncated]));
  }

  lemma FilesLoopEnd(
    files: seq<FileRecord>, metaCost: FileRecord -> nat, decide: (FileRecord, int, nat) -> Content,
    count0: int, count: int,
    done: seq<FilePiece>, jobs: seq<Job>, texts: seq<string>, filesText: string)
    requires FilesLoopInv(files, metaCost, decide, count0, |files|, count, done, jobs, texts, filesText)
    ensures filesText == FilesHeading + RenderFiles(FilesWalkWith(files, metaCost, decide, count0, 0).pieces)
    ensures jobs == Jobs(FilesWalkWith(files, metaCost, decide, count0, 0).pieces)
    ensures count == FilesWalkWith(files, metaCost, decide, count0, 0).count
  {
    assert files[|files|..] == [];
    assert done + [] == done;
    ConcatCons(FilesHeading, FileTexts(done));
  }

  /**
   * The files loop of `GET`: the heading, then each file's metadata and content
   * line, scheduling the downloads that fit, until the count is past the
   * ceiling, where one marker is written and the loop stops.
   */
  method AppendFiles(files: seq<FileRecord>, count0: int) returns (filesText: string, jobs: seq<Job>, count: int)
    ensures filesText == FilesText(files, count0)
    ensures jobs == Jobs(FilesWalk(files, count0, 0).pieces)
    ensures count == FilesWalk(files, count0, 0).count
  {
    count := count0;
    filesText := FilesHeading;
    jobs := [];
    ghost var filesDone: seq<FilePiece> := [];
    ghost var texts: seq<string> := [FilesHeading];
    FilesLoopStart(files, MetadataCostOf, Decide, count0);
    var j := 0;
    while j < |files|
      invariant FilesLoopInv(files, MetadataCostOf, Decide, count0, j, count, filesDone, jobs, texts, filesText)
    {
      if count > Ceiling {
        FilesLoopStop(files, MetadataCostOf, Decide, count0, j, count, filesDone, jobs, texts, filesText);
        filesText := filesText + FileTruncatedMarker;
        return;
      }
      var file := files[j];
      var fileMetadata := FileMetadata(file);
      ghost var count1, jobs1, filesText0 := count, jobs, filesText;
      filesText := filesText + fileMetadata;
      count := count + Cost(fileMetadata);
      var content;
      content, jobs := ScheduleContent(file, count, jobs);
      filesText := filesText + ContentText(content);
      FilesLoopListed(files, MetadataCostOf, Decide, count0, j, count1, filesDone, jobs1, texts, filesText0, fileMetadata, count, content, jobs);
      texts := texts + [fileMetadata] + [ContentText(content)];
      filesDone := filesDone + [Listed(file, content)];
      j := j + 1;
    }
    FilesLoopEnd(files, MetadataCostOf, Decide, count0, count, filesDone, jobs, texts, filesText);
  }

  /** The header and the two sections, as `GET` assembles them before any download. */
  method AssembleUserContent(now: string, notes: seq<NoteRecord>, files: seq<FileRecord>)
    returns (parts: seq<Part>, jobs: seq<Job>, count: int)
    ensures parts == TextParts(now, notes, files)
    ensures jobs == PlannedJobs(now, notes, files)
    ensures count == FilesWalk(files, CountAfterNotes(now, notes), 0).count
  {
    var initialText := HeaderText(now);
    parts := [TextPart(initialText)];
    count := Cost(initialText);
    var notesText;
    notesText, count := AppendNotes(notes, count);
    parts := parts + [TextPart(notesText)];
    var filesText;
    filesText, jobs, count := AppendFiles(files, count);
    parts := parts + [TextPart(filesText)];
  }
}
