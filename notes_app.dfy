/** The LaTeX notes client's list state (`Notes_Latex/client/src/App.js`):
    the notes, the selected id, the note being edited and the colour scheme.
    Each request to the notes server is one step whose settled outcome is a
    parameter; a failed request leaves the state as it was. */
module NotesApp {
  import opened Wrappers
  import opened Seqs
  import opened Text

  /** A stored note; `id` is the server's `_id`. */
  datatype Note = Note(id: string, title: string, content: string)

  /** The body of a note creation request. */
  datatype NoteDraft = NoteDraft(title: string, content: string)

  /** What "New Note" sends. */
  const NewNoteDraft := NoteDraft("Untitled", " ")

  /** Save's check: a note, with a title and a content that are not blank. */
  predicate CanSave(editing: Option<Note>) {
    editing.Some? && !IsBlank(editing.value.title) && !IsBlank(editing.value.content)
  }

  /** A note created from the draft and saved unedited is refused: its
      content is a single space. */
  lemma NewNoteDraftNotSavable(id: string)
    ensures !CanSave(Some(Note(id, NewNoteDraft.title, NewNoteDraft.content)))
  {
    assert IsJsWhitespace(' ');
    assert TrimStart(" ") == [];
  }

  /** The notes list after a save: the server's note replaces every note with
      the edited id, in place. */
  function ReplaceNote(notes: seq<Note>, id: string, saved: Note): (r: seq<Note>)
    ensures |r| == |notes|
    ensures forall i :: 0 <= i < |notes| ==> r[i] == (if notes[i].id == id then saved else notes[i])
  {
    MapWhere(notes, (n: Note) => n.id == id, (_: Note) => saved)
  }

  /** The notes list after a delete: every note with the id is gone, the rest
      keep their order. */
  function RemoveNote(notes: seq<Note>, id: string): (r: seq<Note>)
    ensures IsSubsequence(r, notes)
    ensures forall i :: 0 <= i < |r| ==> r[i].id != id
    ensures forall i :: 0 <= i < |notes| && notes[i].id != id ==> notes[i] in r
    ensures forall i :: 0 <= i < |notes| ==>
      multiset(r)[notes[i]] == if notes[i].id != id then multiset(notes)[notes[i]] else 0
  {
    Filter(notes, (n: Note) => n.id != id)
  }

  /** Deleting an id no note has keeps the list. */
  lemma RemoveMissingNoteKeepsList(notes: seq<Note>, id: string)
    requires forall i :: 0 <= i < |notes| ==> notes[i].id != id
    ensures RemoveNote(notes, id) == notes
  {
    FilterAll(notes, (n: Note) => n.id != id);
  }

  class NotesApp {
    var notes: seq<Note>
    var selectedNoteId: Option<string>
    var editingNote: Option<Note>
    var darkMode: bool

    constructor ()
      ensures notes == [] && selectedNoteId == None && editingNote == None && !darkMode
    {
      notes := [];
      selectedNoteId := None;
      editingNote := None;
      darkMode := false;
    }

    /** The initial fetch. */
    method LoadNotes(outcome: Outcome<seq<Note>>)
      modifies this
      ensures outcome.Ok? ==> notes == outcome.value
      ensures outcome.Err? ==> notes == old(notes)
      ensures selectedNoteId == old(selectedNoteId) && editingNote == old(editingNote) && darkMode == old(darkMode)
    {
      if outcome.Ok? {
        notes := outcome.value;
      }
    }

    /** `handleSelectNote`: the id is selected even when no note has it; the
        editor gets a copy of the first note with the id, or nothing. */
    method HandleSelectNote(id: string)
      modifies this
      ensures selectedNoteId == Some(id)
      ensures editingNote.None? <==> forall i :: 0 <= i < |notes| ==> notes[i].id != id
      ensures editingNote.Some? ==> editingNote.value in notes && editingNote.value.id == id
      ensures editingNote.Some? ==> exists i :: (0 <= i < |notes| && notes[i] == editingNote.value
        && forall j :: 0 <= j < i ==> notes[j].id != id)
      ensures notes == old(notes) && darkMode == old(darkMode)
    {
      selectedNoteId := Some(id);
      editingNote := Find(notes, (n: Note) => n.id == id);
    }

    /** `handleChange`: the editor's new version of the note. */
    method HandleChange(updated: Note)
      modifies this
      ensures editingNote == Some(updated)
      ensures notes == old(notes) && selectedNoteId == old(selectedNoteId) && darkMode == old(darkMode)
    {
      editingNote := Some(updated);
    }

    /** `handleSave`: refused without a request unless `CanSave`; otherwise
        the note is sent and, on success, the server's version replaces the
        notes with its id. Returns whether the save was refused and the
        note sent to the server. */
    method HandleSave(outcome: Outcome<Note>) returns (refused: bool, sent: Option<Note>)
      modifies this
      ensures refused <==> !CanSave(old(editingNote))
      ensures refused ==> sent == None
      ensures !refused ==> sent == old(editingNote) && sent.Some?
      ensures !refused && outcome.Ok? ==> notes == ReplaceNote(old(notes), old(editingNote).value.id, outcome.value)
      ensures refused || outcome.Err? ==> notes == old(notes)
      ensures selectedNoteId == old(selectedNoteId) && editingNote == old(editingNote) && darkMode == old(darkMode)
    {
      if !CanSave(editingNote) {
        return true, None;
      }
      refused := false;
      sent := editingNote;
      if outcome.Ok? {
        notes := ReplaceNote(notes, editingNote.value.id, outcome.value);
      }
    }

    /** `handleNewNote`: the fixed draft is sent; the created note goes to
        the front of the list and is selected and opened. */
    method HandleNewNote(outcome: Outcome<Note>) returns (sent: NoteDraft)
      modifies this
      ensures sent == NewNoteDraft
      ensures outcome.Ok? ==>
        notes == [outcome.value] + old(notes) && selectedNoteId == Some(outcome.value.id) && editingNote == Some(outcome.value)
      ensures outcome.Err? ==>
        notes == old(notes) && selectedNoteId == old(selectedNoteId) && editingNote == old(editingNote)
      ensures darkMode == old(darkMode)
    {
      sent := NewNoteDraft;
      if outcome.Ok? {
        notes := [outcome.value] + notes;
        selectedNoteId := Some(outcome.value.id);
        editingNote := Some(outcome.value);
      }
    }

    /** `handleDeleteNote`: once the server confirms, the notes with the id
        are removed; selection and editor are cleared only when the deleted
        id was the selected one. */
    method HandleDeleteNote(id: string, outcome: Outcome<()>)
      modifies this
      ensures outcome.Ok? ==> notes == RemoveNote(old(notes), id)
      ensures outcome.Ok? && old(selectedNoteId) == Some(id) ==> selectedNoteId == None && editingNote == None
      ensures outcome.Err? || old(selectedNoteId) != Some(id) ==>
        selectedNoteId == old(selectedNoteId) && editingNote == old(editingNote)
      ensures outcome.Err? ==> notes == old(notes)
      ensures darkMode == old(darkMode)
    {
      if outcome.Ok? {
        notes := RemoveNote(notes, id);
        if selectedNoteId == Some(id) {
          selectedNoteId := None;
          editingNote := None;
        }
      }
    }

    /** The colour scheme button. */
    method ToggleDarkMode()
      modifies this
      ensures darkMode == !old(darkMode)
      ensures notes == old(notes) && selectedNoteId == old(selectedNoteId) && editingNote == old(editingNote)
    {
      darkMode := !darkMode;
    }
  }

  /** Creating a note and saving it straight away is refused when the server
      echoes the draft, and the list keeps the new note unchanged. */
  method NewNoteThenSave(created: Note, saveOutcome: Outcome<Note>) returns (refused: bool, sent: Option<Note>, first: Note)
    requires created.title == NewNoteDraft.title && created.content == NewNoteDraft.content
    ensures refused && sent == None && first == created
  {
    var app := new NotesApp();
    var _ := app.HandleNewNote(Ok(created));
    NewNoteDraftNotSavable(created.id);
    refused, sent := app.HandleSave(saveOutcome);
    first := app.notes[0];
  }
}
