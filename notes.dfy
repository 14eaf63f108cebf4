/**
 * The notes screen: an ordered list of notes (newest first), a creation
 * form, and a detail pane that shows the selected note and can edit it.
 *
 * Each handler is given twice: as a pure transition on `NotesState`, the
 * screen's whole state as a value, about which the properties are proved;
 * and as a method of `NotesScreen`, which updates the fields one by one and
 * is proved to reach the state the transition describes.
 */
module Notes {
  import opened Wrappers
  import opened Text
  import Records
  import Storage

  /** Timestamps are clock readings (the source stores ISO-8601 strings). */
  datatype Note = Note(id: string, title: string, content: string, createdAt: int, updatedAt: int, color: string)

  /** `NOTE_COLORS`: the six background colours a note may have; the first
      is the default. */
  const Palette: seq<string> := ["#1c1c1c", "#2a1f1f", "#1a2a22", "#1f2a2a", "#2a2a1f", "#2a1f2a"]

  /** The storage key the screen reads and writes. */
  const NotesKey := "notes"

  function NoteId(n: Note): string { n.id }

  /** `color` is one of the `NOTE_COLORS`. */
  predicate InPalette(color: string) {
    exists k :: 0 <= k < |Palette| && Palette[k] == color
  }

  /** The notes of a list all use palette colours. */
  predicate AllInPalette(notes: seq<Note>) {
    forall n :: n in notes ==> InPalette(n.color)
  }

  /** The palette has six distinct colours, the first being the default. */
  lemma PaletteDistinct()
    ensures |Palette| == 6 && Palette[0] == "#1c1c1c"
    ensures forall i, j :: 0 <= i < j < |Palette| ==> Palette[i] != Palette[j]
  {
  }

  /** Every field of the screen's state, as a value. */
  datatype NotesState = NotesState(
    notes: seq<Note>,
    isCreating: bool,
    newTitle: string,
    newContent: string,
    selectedColor: string,
    selectedNote: Option<Note>,
    isEditing: bool,
    editTitle: string,
    editContent: string,
    editColor: string)

  /** The colour rule: every stored note, the selected note and both colour
      buffers use a palette colour. */
  predicate Colored(s: NotesState) {
    && AllInPalette(s.notes)
    && InPalette(s.selectedColor)
    && InPalette(s.editColor)
    && (s.selectedNote.Some? ==> InPalette(s.selectedNote.value.color))
  }

  /** The guard of both create and save: title or content is non-blank,
      that is, has a character that is not whitespace. */
  predicate HasText(title: string, content: string)
    ensures HasText(title, content) <==> !AllWhitespace(title) || !AllWhitespace(content)
  {
    TrimEmptyIff(title);
    TrimEmptyIff(content);
    !(Trim(title) == [] && Trim(content) == [])
  }

  /** The state when the screen mounts. */
  function Initial(): (s: NotesState)
    ensures Colored(s) && s.notes == [] && s.selectedNote.None?
  {
    NotesState([], false, [], [], Palette[0], None, false, [], [], Palette[0])
  }

  /** `loadNotes`: a stored list replaces the current one; nothing stored (or
      a failed read) leaves it. */
  function Loaded(s: NotesState, stored: Option<seq<Note>>): (r: NotesState)
    ensures Colored(s) && (stored.Some? ==> AllInPalette(stored.value))
      ==> Colored(r)
  {
    if stored.Some? then s.(notes := stored.value) else s
  }

  /** The `+` button opens the creation form. */
  function ShowForm(s: NotesState): (r: NotesState)
    ensures Colored(s) ==> Colored(r)
  {
    s.(isCreating := true)
  }

  /** The form's "Cancelar": closes the form and clears it. */
  function DismissForm(s: NotesState): (r: NotesState)
    ensures Colored(s) ==> Colored(r)
    ensures !r.isCreating && r.newTitle == [] && r.newContent == [] && r.selectedColor == Palette[0]
  {
    s.(isCreating := false, newTitle := [], newContent := [], selectedColor := Palette[0])
  }

  /** The note a successful create stores: trimmed texts, and the two clock
      readings taken for `createdAt` and `updatedAt`, which may differ. */
  function NewNote(id: string, title: string, content: string, created: int, updated: int, color: string): (n: Note)
    ensures n.id == id && n.title == Trim(title) && n.content == Trim(content)
    ensures n.color == color && n.createdAt == created && n.updatedAt == updated
  {
    Note(id, Trim(title), Trim(content), created, updated, color)
  }

  /** `createNote`: on a non-blank title or content, prepends a note with the
      trimmed texts and the picked colour, then resets the form. */
  function Create(s: NotesState, id: string, created: int, updated: int): (r: NotesState)
    ensures Colored(s) ==> Colored(r)
  {
    if !HasText(s.newTitle, s.newContent) then s
    else
      s.(notes := [NewNote(id, s.newTitle, s.newContent, created, updated, s.selectedColor)] + s.notes,
         newTitle := [], newContent := [], selectedColor := Palette[0], isCreating := false)
  }

  /** `openNote`: selects the note and copies its fields into the edit buffers. */
  function Open(s: NotesState, n: Note): (r: NotesState)
    ensures Colored(s) && InPalette(n.color) ==> Colored(r)
  {
    s.(selectedNote := Some(n), editTitle := n.title, editContent := n.content, editColor := n.color)
  }

  /** `closeNote`: back to the grid, with the edit buffers cleared. */
  function Close(s: NotesState): (r: NotesState)
    ensures Colored(s) ==> Colored(r)
  {
    s.(selectedNote := None, isEditing := false, editTitle := [], editContent := [], editColor := Palette[0])
  }

  /** `startEditing`. */
  function BeginEdit(s: NotesState): (r: NotesState)
    ensures Colored(s) ==> Colored(r)
  {
    s.(isEditing := true)
  }

  /** The selected note with the edit buffers applied at time `now`. */
  function Edited(n: Note, title: string, content: string, color: string, now: int): (u: Note)
    ensures u.id == n.id && u.createdAt == n.createdAt
    ensures u.title == Trim(title) && u.content == Trim(content) && u.color == color && u.updatedAt == now
  {
    n.(title := Trim(title), content := Trim(content), color := color, updatedAt := now)
  }

  /** `saveEdit`: with a note selected and a non-blank buffer, replaces every
      note with the selected id by the edited note and leaves edit mode. */
  function CommitEdit(s: NotesState, now: int): (r: NotesState)
    ensures Colored(s) ==> Colored(r)
  {
    if s.selectedNote.None? || !HasText(s.editTitle, s.editContent) then s
    else
      var u := Edited(s.selectedNote.value, s.editTitle, s.editContent, s.editColor, now);
      s.(notes := Records.UpdateWhere(s.notes, NoteId, u.id, n => u),
         isEditing := false, selectedNote := Some(u))
  }

  /** `cancelEdit`: restores the buffers from the selected note and leaves
      edit mode; with nothing selected it does nothing. */
  function DiscardEdit(s: NotesState): (r: NotesState)
    ensures Colored(s) ==> Colored(r)
  {
    if s.selectedNote.None? then s
    else
      var n := s.selectedNote.value;
      s.(editTitle := n.title, editContent := n.content, editColor := n.color, isEditing := false)
  }

  /** `deleteNote` after the dialog: "Excluir" drops every note with the id,
      "Cancelar" changes nothing. */
  function Delete(s: NotesState, id: string, confirmed: bool): (r: NotesState)
    ensures Colored(s) ==> Colored(r)
  {
    if confirmed then s.(notes := Records.Without(s.notes, NoteId, id)) else s
  }

  /** The edit view's "Excluir": `closeNote()` and then `deleteNote(id)` of the
      note that was selected. */
  function DeleteFromEditor(s: NotesState, confirmed: bool): (r: NotesState)
    requires s.selectedNote.Some?
    ensures Colored(s) ==> Colored(r)
  {
    Delete(Close(s), s.selectedNote.value.id, confirmed)
  }

  // ---------------------------------------------------------------------
  // Properties of the transitions

  /** Creating with a blank title and a blank content is refused and changes
      nothing, neither the list nor the form. */
  lemma CreateRejectsBlank(s: NotesState, id: string, created: int, updated: int)
    requires Trim(s.newTitle) == [] && Trim(s.newContent) == []
    ensures Create(s, id, created, updated) == s
  {
  }

  /** A successful create puts one new note in front of the old list, with the
      trimmed texts, the picked colour and the two clock readings; the form is
      reset and closed; the detail pane is untouched. */
  lemma CreatePrepends(s: NotesState, id: string, created: int, updated: int)
    requires HasText(s.newTitle, s.newContent)
    ensures var r := Create(s, id, created, updated);
      && |r.notes| == |s.notes| + 1
      && r.notes[0] == Note(id, Trim(s.newTitle), Trim(s.newContent), created, updated, s.selectedColor)
      && r.notes[1..] == s.notes
      && r.newTitle == [] && r.newContent == [] && r.selectedColor == Palette[0] && !r.isCreating
      && r.selectedNote == s.selectedNote && r.isEditing == s.isEditing
      && r.editTitle == s.editTitle && r.editContent == s.editContent && r.editColor == s.editColor
  {
  }

  /** A trimmed title or content keeps a non-blank note non-blank: whatever a
      successful create stores satisfies the guard again. */
  lemma CreatedNoteHasText(s: NotesState, id: string, created: int, updated: int)
    requires HasText(s.newTitle, s.newContent)
    ensures var n := Create(s, id, created, updated).notes[0]; HasText(n.title, n.content)
  {
    TrimIdempotent(s.newTitle);
    TrimIdempotent(s.newContent);
  }

  /** Opening a note loads its title, content and colour into the buffers. */
  lemma OpenLoadsBuffers(s: NotesState, n: Note)
    ensures var r := Open(s, n);
      r.selectedNote == Some(n) && r.editTitle == n.title && r.editContent == n.content
      && r.editColor == n.color && r.notes == s.notes
  {
  }

  /** Saving with nothing selected does nothing. */
  lemma CommitWithoutSelection(s: NotesState, now: int)
    requires s.selectedNote.None?
    ensures CommitEdit(s, now) == s
  {
  }

  /** Saving blank buffers is refused: the list and the edit flag stay. */
  lemma CommitRejectsBlank(s: NotesState, now: int)
    requires Trim(s.editTitle) == [] && Trim(s.editContent) == []
    ensures CommitEdit(s, now) == s
  {
  }

  /** A successful save rewrites exactly the notes that carry the selected id,
      keeping their id and creation stamp and taking the trimmed buffers, the
      edit colour and `now`; every other note stays where it was; the
      selection becomes the edited note and edit mode ends. */
  lemma CommitReplacesById(s: NotesState, now: int)
    requires s.selectedNote.Some? && HasText(s.editTitle, s.editContent)
    ensures var r := CommitEdit(s, now);
      var sel := s.selectedNote.value;
      var u := Note(sel.id, Trim(s.editTitle), Trim(s.editContent), sel.createdAt, now, s.editColor);
      && |r.notes| == |s.notes|
      && (forall i :: 0 <= i < |s.notes| ==>
            r.notes[i] == if s.notes[i].id == sel.id then u else s.notes[i])
      && r.selectedNote == Some(u) && !r.isEditing
      && r.editTitle == s.editTitle && r.editContent == s.editContent && r.editColor == s.editColor
  {
  }

  /** A save keeps the sequence of ids, so the grid order is unchanged. */
  lemma {:induction false} CommitKeepsIds(s: NotesState, now: int)
    ensures var r := CommitEdit(s, now);
      |r.notes| == |s.notes| && forall i :: 0 <= i < |s.notes| ==> r.notes[i].id == s.notes[i].id
  {
    if s.selectedNote.Some? && HasText(s.editTitle, s.editContent) {
      CommitReplacesById(s, now);
    }
  }

  /** Cancelling an edit puts the selected note's fields back into the
      buffers, leaves edit mode and does not touch the list. */
  lemma DiscardRestoresBuffers(s: NotesState)
    requires s.selectedNote.Some?
    ensures var r := DiscardEdit(s); var n := s.selectedNote.value;
      r.editTitle == n.title && r.editContent == n.content && r.editColor == n.color
      && !r.isEditing && r.notes == s.notes && r.selectedNote == s.selectedNote
  {
  }

  /** Cancelling an edit right after opening a note and editing the buffers
      brings the buffers back to what opening put there. */
  lemma DiscardUndoesBufferEdits(s: NotesState, n: Note, title: string, content: string, color: string)
    ensures var shown := Open(s, n);
      var edited := shown.(editTitle := title, editContent := content, editColor := color);
      DiscardEdit(BeginEdit(edited)) == shown.(isEditing := false)
  {
  }

  /** A confirmed delete keeps exactly the notes with another id; a cancelled
      one changes nothing. */
  lemma DeleteSpec(s: NotesState, id: string, confirmed: bool)
    ensures var r := Delete(s, id, confirmed);
      && (!confirmed ==> r == s)
      && (confirmed ==> forall n :: n in r.notes <==> n in s.notes && n.id != id)
      && r.selectedNote == s.selectedNote
  {
  }

  /** Deleting a note that is not in the list, even when confirmed, leaves
      the list as it was. */
  lemma DeleteAbsent(s: NotesState, id: string)
    requires forall i :: 0 <= i < |s.notes| ==> s.notes[i].id != id
    ensures Delete(s, id, true) == s
  {
    Records.WithoutAbsent(s.notes, NoteId, id);
  }

  /** Deleting from the edit view returns to the grid whether or not the
      deletion is confirmed; only a confirmation removes the note. */
  lemma DeleteFromEditorCloses(s: NotesState, confirmed: bool)
    requires s.selectedNote.Some?
    ensures var r := DeleteFromEditor(s, confirmed);
      && r.selectedNote.None? && !r.isEditing && r.editColor == Palette[0]
      && r.notes == (if confirmed then Records.Without(s.notes, NoteId, s.selectedNote.value.id) else s.notes)
  {
  }

  // ---------------------------------------------------------------------
  // The screen

  class NotesScreen {
    var notes: seq<Note>
    var isCreating: bool
    var newTitle: string
    var newContent: string
    var selectedColor: string
    var selectedNote: Option<Note>
    var isEditing: bool
    var editTitle: string
    var editContent: string
    var editColor: string
    const slot: Storage.Slot<Note>

    function State(): NotesState
      reads this
    {
      NotesState(notes, isCreating, newTitle, newContent, selectedColor,
                 selectedNote, isEditing, editTitle, editContent, editColor)
    }

    /** The colour rule holds on screen and in the slot, which only this
        screen writes. */
    predicate Valid()
      reads this, slot
    {
      && slot.key == NotesKey
      && Colored(State())
      && (slot.contents.Some? ==> AllInPalette(slot.contents.value))
    }

    constructor (slot: Storage.Slot<Note>)
      requires slot.key == NotesKey
      requires slot.contents.Some? ==> AllInPalette(slot.contents.value)
      ensures Valid() && this.slot == slot && State() == Initial()
    {
      this.slot := slot;
      notes, isCreating, newTitle, newContent, selectedColor := [], false, [], [], Palette[0];
      selectedNote, isEditing, editTitle, editContent, editColor := None, false, [], [], Palette[0];
    }

    method LoadNotes(readOk: bool)
      requires Valid()
      modifies this
      ensures Valid()
      ensures State() == Loaded(old(State()), if readOk then slot.contents else None)
    {
      var stored := slot.Read(readOk);
      if stored.Some? {
        notes := stored.value;
      }
    }

    /** `saveNotes`: the write-through after every change to the list. */
    method SaveNotes(writeOk: bool)
      requires Valid()
      modifies slot
      ensures Valid()
      ensures slot.contents == if writeOk then Some(notes) else old(slot.contents)
    {
      slot.Write(notes, writeOk);
    }

    method ShowCreateForm()
      requires Valid()
      modifies this
      ensures Valid() && State() == ShowForm(old(State()))
    {
      isCreating := true;
    }

    method CancelCreateForm()
      requires Valid()
      modifies this
      ensures Valid() && State() == DismissForm(old(State()))
    {
      isCreating := false;
      newTitle := [];
      newContent := [];
      selectedColor := Palette[0];
    }

    method SetNewTitle(text: string)
      requires Valid()
      modifies this
      ensures Valid() && State() == old(State()).(newTitle := text)
    {
      newTitle := text;
    }

    method SetNewContent(text: string)
      requires Valid()
      modifies this
      ensures Valid() && State() == old(State()).(newContent := text)
    {
      newContent := text;
    }

    /** The creation form's colour picker offers only palette colours. */
    method SetSelectedColor(color: string)
      requires Valid() && InPalette(color)
      modifies this
      ensures Valid() && State() == old(State()).(selectedColor := color)
    {
      selectedColor := color;
    }

    method SetEditTitle(text: string)
      requires Valid()
      modifies this
      ensures Valid() && State() == old(State()).(editTitle := text)
    {
      editTitle := text;
    }

    method SetEditContent(text: string)
      requires Valid()
      modifies this
      ensures Valid() && State() == old(State()).(editContent := text)
    {
      editContent := text;
    }

    /** The edit form's colour picker offers only palette colours. */
    method SetEditColor(color: string)
      requires Valid() && InPalette(color)
      modifies this
      ensures Valid() && State() == old(State()).(editColor := color)
    {
      editColor := color;
    }

    /** `createNote`, given the id and the two clock readings. */
    method CreateNote(id: string, createdAt: int, updatedAt: int, writeOk: bool) returns (created: bool)
      requires Valid()
      modifies this, slot
      ensures Valid()
      ensures created == HasText(old(newTitle), old(newContent))
      ensures State() == Create(old(State()), id, createdAt, updatedAt)
      ensures slot.contents == if created && writeOk then Some(notes) else old(slot.contents)
    {
      ghost var before := State();
      if !HasText(newTitle, newContent) {
        return false;
      }
      notes := [NewNote(id, newTitle, newContent, createdAt, updatedAt, selectedColor)] + notes;
      SaveNotes(writeOk);
      newTitle := [];
      newContent := [];
      selectedColor := Palette[0];
      isCreating := false;
      created := true;
      CreatePrepends(before, id, createdAt, updatedAt);
    }

    /** The grid passes one of its own notes. */
    method OpenNote(note: Note)
      requires Valid() && note in notes
      modifies this
      ensures Valid() && State() == Open(old(State()), note)
    {
      selectedNote := Some(note);
      editTitle := note.title;
      editContent := note.content;
      editColor := note.color;
    }

    method CloseNote()
      requires Valid()
      modifies this
      ensures Valid() && State() == Close(old(State()))
    {
      selectedNote := None;
      isEditing := false;
      editTitle := [];
      editContent := [];
      editColor := Palette[0];
    }

    method StartEditing()
      requires Valid()
      modifies this
      ensures Valid() && State() == BeginEdit(old(State()))
    {
      isEditing := true;
    }

    method SaveEdit(now: int, writeOk: bool) returns (saved: bool)
      requires Valid()
      modifies this, slot
      ensures Valid()
      ensures saved == (old(selectedNote).Some? && HasText(old(editTitle), old(editContent)))
      ensures State() == CommitEdit(old(State()), now)
      ensures slot.contents == if saved && writeOk then Some(notes) else old(slot.contents)
    {
      if selectedNote.None? {
        return false;
      }
      if !HasText(editTitle, editContent) {
        return false;
      }
      var updated := Edited(selectedNote.value, editTitle, editContent, editColor, now);
      notes := Records.UpdateWhere(notes, NoteId, updated.id, n => updated);
      SaveNotes(writeOk);
      isEditing := false;
      selectedNote := Some(updated);
      saved := true;
    }

    method CancelEdit()
      requires Valid()
      modifies this
      ensures Valid() && State() == DiscardEdit(old(State()))
    {
      if selectedNote.None? {
        return;
      }
      editTitle := selectedNote.value.title;
      editContent := selectedNote.value.content;
      editColor := selectedNote.value.color;
      isEditing := false;
    }

    /** `deleteNote` with the user's answer to the confirmation dialog. */
    method DeleteNote(id: string, confirmed: bool, writeOk: bool)
      requires Valid()
      modifies this, slot
      ensures Valid() && State() == Delete(old(State()), id, confirmed)
      ensures slot.contents == if confirmed && writeOk then Some(notes) else old(slot.contents)
    {
      if confirmed {
        notes := Records.Without(notes, NoteId, id);
        SaveNotes(writeOk);
      }
    }

    /** The edit view's delete button; it is only shown while a note is selected. */
    method DeleteFromEditView(confirmed: bool, writeOk: bool)
      requires Valid() && selectedNote.Some?
      modifies this, slot
      ensures Valid() && State() == DeleteFromEditor(old(State()), confirmed)
      ensures slot.contents == if confirmed && writeOk then Some(notes) else old(slot.contents)
    {
      var id := selectedNote.value.id;
      CloseNote();
      DeleteNote(id, confirmed, writeOk);
    }
  }

  /** A restart: a fresh screen on the same slot, after a successful read,
      shows the notes the previous screen last wrote. */
  method Restart(previous: NotesScreen) returns (screen: NotesScreen)
    requires previous.Valid() && previous.slot.contents == Some(previous.notes)
    ensures screen.Valid() && screen.slot == previous.slot
    ensures screen.notes == previous.notes && screen.selectedNote.None? && !screen.isCreating
  {
    screen := new NotesScreen(previous.slot);
    screen.LoadNotes(true);
  }
}
