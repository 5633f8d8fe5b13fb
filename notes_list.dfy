/**
 * The notes list's local state: the notes shown, the note being edited and the
 * edit text, with optimistic delete and save that fall back to a snapshot when
 * the database reports an error. The database answer is an input.
 */
module NotesList {
  import opened Wrappers
  import opened Js

  datatype Note = Note(id: int, text: string, createdAt: string, userId: string)

  /** `notes.filter((note) => note.id !== id)`. */
  function WithoutId(notes: seq<Note>, id: int): (r: seq<Note>)
    ensures |r| <= |notes|
    ensures forall n :: n in r <==> n in notes && n.id != id
  {
    if notes == [] then []
    else (if notes[0].id != id then [notes[0]] else []) + WithoutId(notes[1..], id)
  }

  /** The filter works piecewise, so the kept notes stay in their original order. */
  lemma {:induction false} WithoutIdAppend(a: seq<Note>, b: seq<Note>, id: int)
    ensures WithoutId(a + b, id) == WithoutId(a, id) + WithoutId(b, id)
  {
    if a != [] {
      assert (a + b)[0] == a[0] && (a + b)[1..] == a[1..] + b;
      WithoutIdAppend(a[1..], b, id);
    } else {
      assert a + b == b;
    }
  }

  /** Every note with another id is kept as often as it occurs; none with the id is. */
  lemma {:induction false} WithoutIdCounts(notes: seq<Note>, id: int)
    ensures forall n :: multiset(WithoutId(notes, id))[n] == if n.id != id then multiset(notes)[n] else 0
  {
    if notes != [] {
      WithoutIdCounts(notes[1..], id);
      assert notes == [notes[0]] + notes[1..];
    }
  }

  /** Deleting an id no note has keeps the list as it is. */
  lemma {:induction false} WithoutAbsentId(notes: seq<Note>, id: int)
    requires forall i :: 0 <= i < |notes| ==> notes[i].id != id
    ensures WithoutId(notes, id) == notes
  {
    if notes != [] {
      WithoutAbsentId(notes[1..], id);
    }
  }

  /** `notes.findIndex((note) => note.id === id)`: the first position with the id, or -1. */
  function FindIndex(notes: seq<Note>, id: int): (r: int)
    ensures r == -1 <==> forall i :: 0 <= i < |notes| ==> notes[i].id != id
    ensures r != -1 ==> 0 <= r < |notes| && notes[r].id == id && forall i :: 0 <= i < r ==> notes[i].id != id
  {
    if notes == [] then -1
    else if notes[0].id == id then 0
    else
      var k := FindIndex(notes[1..], id);
      if k == -1 then -1 else k + 1
  }

  /** The optimistic save: the first note with the id gets the new text and keeps everything else. */
  function WithText(notes: seq<Note>, id: int, text: string): (r: seq<Note>)
    requires FindIndex(notes, id) != -1
    ensures |r| == |notes|
    ensures forall i :: 0 <= i < |notes| ==>
      r[i].id == notes[i].id && r[i].createdAt == notes[i].createdAt && r[i].userId == notes[i].userId
    ensures forall i :: 0 <= i < |notes| ==> r[i].text == (if i == FindIndex(notes, id) then text else notes[i].text)
  {
    var k := FindIndex(notes, id);
    notes[k := notes[k].(text := text)]
  }

  /** `NotesList`'s state. */
  class NotesList {
    var notes: seq<Note>
    var editingNoteId: Option<int>
    var editText: string

    constructor (initialNotes: seq<Note>)
      ensures notes == initialNotes && editingNoteId.None? && editText == ""
    {
      notes := initialNotes;
      editingNoteId := None;
      editText := "";
    }

    /** The effect on a new `notes` prop: the list is replaced, the edit state kept. */
    method SyncProp(initialNotes: seq<Note>)
      modifies this
      ensures notes == initialNotes && editingNoteId == old(editingNoteId) && editText == old(editText)
    {
      notes := initialNotes;
    }

    /**
     * `handleDelete`: remove the notes with the id at once, then restore the
     * snapshot if the database reports an error. `optimistic` is the list
     * shown while the request is pending.
     */
    method HandleDelete(noteId: int, deleteFails: bool) returns (ghost optimistic: seq<Note>)
      modifies this
      ensures optimistic == WithoutId(old(notes), noteId)
      ensures notes == if deleteFails then old(notes) else optimistic
      ensures editingNoteId == old(editingNoteId) && editText == old(editText)
    {
      var originalNotes := notes;
      notes := WithoutId(notes, noteId);
      optimistic := notes;
      if deleteFails {
        notes := originalNotes;
      }
    }

    method HandleEditClick(note: Note)
      modifies this
      ensures editingNoteId == Some(note.id) && editText == note.text && notes == old(notes)
    {
      editingNoteId := Some(note.id);
      editText := note.text;
    }

    method HandleCancelEdit()
      modifies this
      ensures editingNoteId.None? && editText == "" && notes == old(notes)
    {
      editingNoteId := None;
      editText := "";
    }

    /**
     * `handleSaveEdit`: a blank edit text or an unknown id changes nothing;
     * otherwise the note's text becomes the untrimmed edit text at once,
     * editing ends and the edit text is cleared, and a database error restores
     * the snapshot.
     */
    method HandleSaveEdit(noteId: int, updateFails: bool) returns (ghost optimistic: seq<Note>)
      modifies this
      ensures Trim(old(editText)) == "" || FindIndex(old(notes), noteId) == -1 ==>
        notes == old(notes) && editingNoteId == old(editingNoteId) && editText == old(editText)
      ensures Trim(old(editText)) != "" && FindIndex(old(notes), noteId) != -1 ==>
        && optimistic == WithText(old(notes), noteId, old(editText))
        && notes == (if updateFails then old(notes) else optimistic)
        && editingNoteId.None? && editText == ""
    {
      optimistic := notes;
      if Trim(editText) == "" {
        return;
      }
      var originalNotes := notes;
      var noteIndex := FindIndex(notes, noteId);
      if noteIndex == -1 {
        return;
      }
      var updatedNotes := notes;
      updatedNotes := updatedNotes[noteIndex := updatedNotes[noteIndex].(text := editText)];
      notes := updatedNotes;
      optimistic := notes;
      editingNoteId := None;
      if updateFails {
        notes := originalNotes;
      }
      editText := "";
    }
  }
}
