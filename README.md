# Tasks, notes and feedback screens: a verified model

This project models the state behind the three screens of a small React Native
productivity app:

- **Tasks, persistent version** (`src/app/tarefas/index.tsx`). New tasks go to
  the front of the list and carry a millisecond creation stamp. The list is
  written to the `@tarefas` storage key after every change, but only once the
  initial load has finished.
- **Tasks, earlier version** (`src/home/index.tsx`). New tasks go to the back,
  there is no stamp and no persistence, and the remove handler asks for
  confirmation itself.
- **Notes** (`src/app/anotacoes/index.tsx`). An ordered list of notes, newest
  first, plus a creation form, a detail pane with an editor, and a six-colour
  palette. The list is written to the `notes` key after each change.
- **Feedback** (`src/app/feedbackScreen.tsx`). A text, an optional e-mail and a
  star rating. These are validated and turned into the fields of one outbound
  request. A success clears the form; a failure keeps it and offers a retry.

## Layout

| file | module | what it holds |
|---|---|---|
| `wrappers.dfy` | `Wrappers` | `Option`, for `Note \| null` and for storage reads |
| `text.dfy` | `Text` | `Trim`, an approximation of ECMAScript `String.prototype.trim` |
| `records.dfy` | `Records` | the two list updaters the screens share: remove by id (`filter`) and rewrite by id (`map`) |
| `storage.dfy` | `Storage` | `Slot<T>`, one key of the device's key-value store |
| `task_store.dfy` | `TaskStore` | the task store both task screens use: add, toggle, remove, counts |
| `tarefas.dfy` | `Tarefas` | the persistent task screen (`TarefasScreen`) |
| `home.dfy` | `Home` | the earlier task screen (`HomeScreen`) |
| `notes.dfy` | `Notes` | the notes state, its pure transitions, and `NotesScreen` |
| `feedback.dfy` | `Feedback` | validation, rating labels, the request fields, and `FeedbackScreen` |

The two task screens share one `TaskStore`. The two store instances differ
only in the type of the creation stamp (`int` or the unit type `()`) and in
the `Placement` of a new task (`Front` or `Back`). That makes the
prepend/append split visible in one place. The screens around the store differ
more: only the newer one persists its list and gates writes on `loading`, and
its remove confirmation lives in the task item (`ConfirmRemove`), where the
earlier screen asks inside the handler. `AddPlacementsAgree` proves that the
two placements store the same tasks.

Each screen is a class whose fields are the component's `useState` variables,
plus a `slot` for the storage key on the two persistent screens and, on the
feedback screen, a `sent` log of the requests issued.
Its methods are the handlers, and each method states the whole new state. On the
notes screen, every handler also exists as a pure transition on `NotesState`, a
value holding all the screen's fields. Each method is proved to reach
`F(old(State()))`, and the properties are proved about the transitions.

Names follow the source but in English: `texto` → `text`, `concluida` →
`done`, `criadaEm` → `createdAt`, `conteudo` → `input`, `NOTE_COLORS` →
`Palette`. A handler such as `adicionarTarefa` is `AddTask`.

Inputs the source takes from its environment are parameters of the methods:

- ids, which the source builds with `Date.now().toString()`;
- clock readings (`Date.now()`, `new Date().toISOString()`), which are `int`s
  here;
- the formatted timestamp string and the platform name in the feedback request;
- whether a storage read or write succeeds (`readOk`, `writeOk`);
- the user's answer to a confirmation dialog (`confirmed`);
- whether the feedback request succeeds (`ok`).

A failed read of the task list is not simply "no tasks". The save effect
also runs when `loading` turns false. So after a failed read followed by a
successful write, the empty list overwrites whatever the slot held.
`TarefasScreen.Load` states this outright: after a failed read, the slot's new
value is `Some(tasks)` when the write succeeds.

## Model

| member | source | states |
|---|---|---|
| Text.IsWhitespace | src/app/tarefas/index.tsx:204 | space, tab, line feed and carriage return count as whitespace for `trim`; ASCII letters and digits never do |
| Text.Utf16Length | src/app/tarefas/index.tsx:204 | the JavaScript length is between the number of code points and twice it, and equals it exactly when every code point is in the Basic Multilingual Plane |
| Text.TrimStart | src/app/tarefas/index.tsx:204 | the start-trimmed string is never longer than the input |
| Text.TrimEnd | src/app/tarefas/index.tsx:211 | the end-trimmed string is never longer than the input |
| Text.Trim | src/app/anotacoes/index.tsx:75 | the trimmed string is never longer than the input |
| Text.TrimStartSpec | src/app/tarefas/index.tsx:204 | trimming the start keeps a suffix, drops only whitespace, and the result does not start with whitespace |
| Text.TrimEndSpec | src/app/tarefas/index.tsx:211 | trimming the end keeps a prefix, drops only whitespace, and the result does not end with whitespace |
| Text.TrimSpec | src/app/anotacoes/index.tsx:82-83 | the trimmed string is a contiguous middle part of the input with only whitespace around it, and it neither starts nor ends with whitespace |
| Text.TrimEmptyIff | src/app/feedbackScreen.tsx:27 | a string trims to empty exactly when every character is ECMAScript whitespace |
| Text.TrimIdempotent | src/app/anotacoes/index.tsx:82-83 | trimming twice gives the same result as trimming once |
| Records.Without | src/app/tarefas/index.tsx:221 | removing by id is never longer, and a record survives exactly when it was in the list with a different id |
| Records.UpdateWhere | src/app/tarefas/index.tsx:226-228 | rewriting by id keeps the length; position i holds f of the old record when its id matches, else the old record itself |
| Records.WithoutAppend | src/app/anotacoes/index.tsx:164 | removing by id distributes over concatenation, so the survivors keep their relative order |
| Records.WithoutAbsent | src/app/tarefas/index.tsx:221 | removing an id that no record carries returns the list unchanged |
| Records.WithoutPresentShrinks | src/app/tarefas/index.tsx:221 | removing an id that some record carries makes the list strictly shorter |
| Records.WithoutIdempotent | src/home/index.tsx:41 | removing the same id twice gives the same result as removing it once |
| Storage.Slot.constructor | src/app/tarefas/index.tsx:30 | a slot has a fixed key and starts with the given contents |
| Storage.Slot.Read | src/app/tarefas/index.tsx:158-161 | a read yields a value exactly when it succeeds and the key holds one, and that value is the stored list |
| Storage.Slot.Write | src/app/tarefas/index.tsx:193 | a successful write replaces the contents; a failed one changes nothing |
| TaskStore.Accepts | src/app/tarefas/index.tsx:204 | the guard is a UTF-16 length of at least 3 after trimming (also src/home/index.tsx:17); an accepted input is never blank, so the add button was enabled for it (src/app/tarefas/index.tsx:355) |
| TaskStore.AcceptsCountsCodeUnits | src/app/tarefas/index.tsx:204 | an emoji above U+FFFF followed by one letter has two code points but is accepted, being three code units long; two letters are refused |
| TaskStore.NewTask | src/app/tarefas/index.tsx:209-214 | a new task has the given id and stamp, the trimmed text, and is not done; when the input passes the guard, so does the task's text |
| TaskStore.Flip | src/app/tarefas/index.tsx:227 | flipping keeps id, text and stamp and changes `done` |
| TaskStore.ActiveCount | src/app/tarefas/index.tsx:232 | the active count is at most the total, and is 0 exactly when every task is done |
| TaskStore.CompletedCount | src/app/tarefas/index.tsx:233 | the completed count is at most the total, and is 0 exactly when no task is done |
| TaskStore.Add | src/app/tarefas/index.tsx:203-216 | input whose trimmed UTF-16 length is below 3 leaves the list unchanged; otherwise the list grows by one, with the new task first (Front) or last (Back) and the old tasks, in order, after or before it |
| TaskStore.Remove | src/app/tarefas/index.tsx:220-222 | a task survives the removal exactly when it was there and has a different id |
| TaskStore.Toggle | src/app/tarefas/index.tsx:224-230 | same length; each task keeps its id, text and stamp; `done` flips exactly on the tasks with the given id |
| TaskStore.CountsPartition | src/app/tarefas/index.tsx:232-233 | the active count plus the completed count equals the total |
| TaskStore.CountsAppend | src/app/tarefas/index.tsx:232-233 | both counts add up over a concatenation |
| TaskStore.AddCounts | src/app/tarefas/index.tsx:209-216 | an accepted add, at either end, adds one active task and leaves the completed count unchanged |
| TaskStore.AddPlacementsAgree | src/home/index.tsx:28 | prepending and appending store the same multiset of tasks |
| TaskStore.AddBackExtends | src/home/index.tsx:28 | after an append, the old list is a prefix of the new one |
| TaskStore.AddFrontExtends | src/app/tarefas/index.tsx:216 | after a prepend, the old list is a suffix of the new one |
| TaskStore.ToggleTwice | src/app/tarefas/index.tsx:224-230 | toggling the same id twice returns the original list |
| TaskStore.ToggleAbsent | src/home/index.tsx:47-55 | toggling an id no task carries changes nothing |
| TaskStore.ToggleMovesOne | src/app/tarefas/index.tsx:224-233 | toggling the id that exactly one task carries moves that task from the active count to the completed count, or back |
| TaskStore.RemoveAbsent | src/app/tarefas/index.tsx:220-222 | a removal leaves the list unchanged exactly when no task carries the id |
| TaskStore.RemoveAppend | src/app/tarefas/index.tsx:221 | the tasks that survive a removal keep their relative order |
| Tarefas.TarefasScreen.constructor | src/app/tarefas/index.tsx:149-151 | on mount the input is empty, there are no tasks, `loading` is true, and the slot is untouched |
| Tarefas.TarefasScreen.SaveEffect | src/app/tarefas/index.tsx:189-201 | while loading, nothing is written; afterwards a successful write stores exactly the current list |
| Tarefas.TarefasScreen.Load | src/app/tarefas/index.tsx:155-170 | a stored list replaces the tasks, and a failed or empty read keeps them; `loading` becomes false either way; the save effect that follows writes the resulting list |
| Tarefas.TarefasScreen.SetInput | src/app/tarefas/index.tsx:338 | the input takes the typed text; nothing else changes |
| Tarefas.TarefasScreen.AddTask | src/app/tarefas/index.tsx:203-218 | accepted exactly when the trimmed input is at least 3 UTF-16 code units long; the tasks become `Add(old, input, Front)`; the input is cleared only on acceptance; the slot mirrors the new list only when not loading |
| Tarefas.TarefasScreen.RemoveTask | src/app/tarefas/index.tsx:220-222 | the tasks become the old ones without the id; the input is unchanged; the slot is mirrored only when not loading |
| Tarefas.TarefasScreen.ConfirmRemove | src/app/tarefas/index.tsx:61-92 | tasks are removed only when the dialog is confirmed; a cancel changes neither the list nor the slot |
| Tarefas.TarefasScreen.ToggleTask | src/app/tarefas/index.tsx:224-230 | the tasks become `Toggle(old, id)`; the slot is mirrored only when not loading |
| Tarefas.TarefasScreen.Stats | src/app/tarefas/index.tsx:232-233 | returns the active and completed counts and the total, with active + completed = total |
| Tarefas.Restart | src/app/tarefas/index.tsx:155-170 | a fresh screen on a slot that mirrored the tasks shows the same tasks after a successful load |
| Home.HomeScreen.constructor | src/home/index.tsx:13-14 | the screen starts with empty input and no tasks |
| Home.HomeScreen.SetInput | src/home/index.tsx:92 | the input takes the typed text; the tasks are unchanged |
| Home.HomeScreen.AddTask | src/home/index.tsx:16-30 | accepted exactly when the trimmed input is at least 3 UTF-16 code units long; the tasks become `Add(old, input, Back)`; the input is cleared only on acceptance |
| Home.HomeScreen.RemoveTask | src/home/index.tsx:32-45 | only a confirmed dialog removes the tasks with the id; a cancel leaves the list unchanged |
| Home.HomeScreen.ToggleTask | src/home/index.tsx:47-55 | the tasks become `Toggle(old, id)`; the input is unchanged |
| Notes.PaletteDistinct | src/app/anotacoes/index.tsx:29-36 | `NOTE_COLORS` holds six distinct colours, the first being `#1c1c1c` |
| Notes.HasText | src/app/anotacoes/index.tsx:75 | the create and save guard (also line 122) holds exactly when the title or the content has a non-whitespace character |
| Notes.NewNote | src/app/anotacoes/index.tsx:80-87 | a new note has the given id, the trimmed title and content, and the picked colour; `createdAt` and `updatedAt` are the two separate clock readings |
| Notes.Initial | src/app/anotacoes/index.tsx:39-48 | the mount state has no notes, no selection, and palette colours in both buffers |
| Notes.Loaded | src/app/anotacoes/index.tsx:55-64 | loading keeps the colour rule when the stored notes use palette colours |
| Notes.ShowForm | src/app/anotacoes/index.tsx:397 | opening the form keeps the colour rule |
| Notes.DismissForm | src/app/anotacoes/index.tsx:354-358 | cancelling the form closes it, empties both texts, and resets the colour to the palette's first |
| Notes.Create | src/app/anotacoes/index.tsx:74-98 | creating keeps the colour rule |
| Notes.Open | src/app/anotacoes/index.tsx:100-105 | opening a palette-coloured note keeps the colour rule |
| Notes.Close | src/app/anotacoes/index.tsx:107-113 | closing keeps the colour rule |
| Notes.BeginEdit | src/app/anotacoes/index.tsx:115-117 | starting an edit keeps the colour rule |
| Notes.Edited | src/app/anotacoes/index.tsx:127-133 | the edited note keeps the id and creation stamp of the selected note, and takes the trimmed buffers, the edit colour and `updatedAt = now` |
| Notes.CommitEdit | src/app/anotacoes/index.tsx:119-143 | saving an edit keeps the colour rule |
| Notes.DiscardEdit | src/app/anotacoes/index.tsx:145-152 | cancelling an edit keeps the colour rule |
| Notes.Delete | src/app/anotacoes/index.tsx:154-171 | deleting keeps the colour rule |
| Notes.DeleteFromEditor | src/app/anotacoes/index.tsx:280-283 | deleting from the edit view keeps the colour rule |
| Notes.CreateRejectsBlank | src/app/anotacoes/index.tsx:75-78 | with a blank title and a blank content, create changes nothing: not the list, not the form |
| Notes.CreatePrepends | src/app/anotacoes/index.tsx:80-97 | a successful create adds one note in front, with the trimmed texts, the picked colour and the two clock readings as `createdAt` and `updatedAt`; the old notes follow in order; the form is reset to empty texts, colour `NOTE_COLORS[0]` and closed; the detail pane is unchanged |
| Notes.CreatedNoteHasText | src/app/anotacoes/index.tsx:82-83 | the note a create stores satisfies the non-blank guard itself |
| Notes.OpenLoadsBuffers | src/app/anotacoes/index.tsx:100-105 | after opening n, the selection is n and the three edit buffers hold n's title, content and colour; the list is unchanged |
| Notes.CommitWithoutSelection | src/app/anotacoes/index.tsx:120 | saving with nothing selected changes nothing |
| Notes.CommitRejectsBlank | src/app/anotacoes/index.tsx:122-125 | saving blank buffers changes nothing, so the list and the edit flag stay as they were |
| Notes.CommitReplacesById | src/app/anotacoes/index.tsx:127-142 | a successful save rewrites exactly the notes with the selected id: id and creation stamp are kept, the trimmed buffers, the edit colour and `updatedAt = now` are taken; other notes stay in place; the selection becomes the edited note and edit mode ends |
| Notes.CommitKeepsIds | src/app/anotacoes/index.tsx:135-137 | every save keeps the length and the id at every position |
| Notes.DiscardRestoresBuffers | src/app/anotacoes/index.tsx:145-152 | after a cancel, the buffers hold the selected note's fields, edit mode is off, and the list and selection are unchanged |
| Notes.DiscardUndoesBufferEdits | src/app/anotacoes/index.tsx:100-152 | open, edit the buffers, start editing, then cancel: this returns the state opening produced, with edit mode off |
| Notes.DeleteSpec | src/app/anotacoes/index.tsx:154-171 | a cancelled delete changes nothing; a confirmed one keeps exactly the notes with another id; the selection is untouched |
| Notes.DeleteAbsent | src/app/anotacoes/index.tsx:164 | deleting an id no note carries leaves the state unchanged, even when confirmed |
| Notes.DeleteFromEditorCloses | src/app/anotacoes/index.tsx:280-283 | deleting from the edit view always clears the selection and edit mode; only a confirmation removes the note |
| Notes.NotesScreen.constructor | src/app/anotacoes/index.tsx:39-48 | the new screen is in the initial state and keeps the colour rule |
| Notes.NotesScreen.LoadNotes | src/app/anotacoes/index.tsx:55-64 | the state becomes `Loaded(old, stored value or nothing)`; the colour rule is kept |
| Notes.NotesScreen.SaveNotes | src/app/anotacoes/index.tsx:66-72 | a successful write stores exactly the current list; a failed one changes nothing |
| Notes.NotesScreen.ShowCreateForm | src/app/anotacoes/index.tsx:397 | the state becomes `ShowForm(old)` |
| Notes.NotesScreen.CancelCreateForm | src/app/anotacoes/index.tsx:354-358 | the state becomes `DismissForm(old)` |
| Notes.NotesScreen.SetNewTitle | src/app/anotacoes/index.tsx:335 | only `newTitle` changes |
| Notes.NotesScreen.SetNewContent | src/app/anotacoes/index.tsx:343 | only `newContent` changes |
| Notes.NotesScreen.SetSelectedColor | src/app/anotacoes/index.tsx:204-214 | only `selectedColor` changes, to a palette colour |
| Notes.NotesScreen.SetEditTitle | src/app/anotacoes/index.tsx:255 | only `editTitle` changes |
| Notes.NotesScreen.SetEditContent | src/app/anotacoes/index.tsx:263 | only `editContent` changes |
| Notes.NotesScreen.SetEditColor | src/app/anotacoes/index.tsx:204-214 | only `editColor` changes, to a palette colour |
| Notes.NotesScreen.CreateNote | src/app/anotacoes/index.tsx:74-98 | the result is true exactly when the guard passes; the state becomes `Create(old, id, createdAt, updatedAt)`, with the two clock readings passed separately; the slot is written only on success |
| Notes.NotesScreen.OpenNote | src/app/anotacoes/index.tsx:100-105 | the state becomes `Open(old, note)` |
| Notes.NotesScreen.CloseNote | src/app/anotacoes/index.tsx:107-113 | the state becomes `Close(old)` |
| Notes.NotesScreen.StartEditing | src/app/anotacoes/index.tsx:115-117 | the state becomes `BeginEdit(old)` |
| Notes.NotesScreen.SaveEdit | src/app/anotacoes/index.tsx:119-143 | the result is true exactly when a note is selected and the buffers pass the guard; the state becomes `CommitEdit(old, now)`; the slot is written only on success |
| Notes.NotesScreen.CancelEdit | src/app/anotacoes/index.tsx:145-152 | the state becomes `DiscardEdit(old)` |
| Notes.NotesScreen.DeleteNote | src/app/anotacoes/index.tsx:154-171 | the state becomes `Delete(old, id, confirmed)`; the slot is written only on confirmation |
| Notes.NotesScreen.DeleteFromEditView | src/app/anotacoes/index.tsx:278-283 | the state becomes `DeleteFromEditor(old, confirmed)`; the slot is written only on confirmation |
| Notes.Restart | src/app/anotacoes/index.tsx:55-72 | a fresh screen on a slot holding the notes shows the same notes after a successful load |
| Feedback.RatingText | src/app/feedbackScreen.tsx:117-126 | the label is "Não avaliado" exactly when the rating is not 1 to 5 |
| Feedback.RatingTextInjective | src/app/feedbackScreen.tsx:117-126 | the five star ratings get five different labels |
| Feedback.Validate | src/app/feedbackScreen.tsx:27-35 | blank feedback is rejected first; then a rating of 0 is rejected; otherwise the form is accepted (each outcome stated as an if-and-only-if) |
| Feedback.CanSubmit | src/app/feedbackScreen.tsx:248-250 | the send button is enabled exactly when the handler would accept and no submit is in flight |
| Feedback.DigitChar | src/app/feedbackScreen.tsx:44 | a digit's character is one of '0' to '9' and denotes that digit |
| Feedback.NatString | src/app/feedbackScreen.tsx:44 | the numeral is non-empty, made only of digits, and has no leading zero |
| Feedback.IntString | src/app/feedbackScreen.tsx:44 | the numeral starts with '-' exactly for negative numbers |
| Feedback.NatStringRoundTrip | src/app/feedbackScreen.tsx:44 | reading the numeral back gives the number |
| Feedback.EmailField | src/app/feedbackScreen.tsx:43 | the e-mail field is the trimmed e-mail when that is non-blank, and "Não informado" otherwise; it is never blank |
| Feedback.BuildPayload | src/app/feedbackScreen.tsx:41-47 | the request carries the supplied timestamp and platform |
| Feedback.AcceptedPayload | src/app/feedbackScreen.tsx:41-47 | an accepted form with a rating a screen can hold (0 to 5) sends the trimmed, non-blank feedback; the trimmed e-mail, or "Não informado" when it is blank; the rating in decimal; and its real label |
| Feedback.FeedbackScreen.constructor | src/app/feedbackScreen.tsx:21-24 | the form starts empty, with rating 0, not submitting, and nothing sent |
| Feedback.FeedbackScreen.SetFeedback | src/app/feedbackScreen.tsx:213-219 | only the feedback text changes; this happens only while no request is in flight |
| Feedback.FeedbackScreen.SetEmail | src/app/feedbackScreen.tsx:198-204 | only the e-mail changes; this happens only while no request is in flight |
| Feedback.FeedbackScreen.SetRating | src/app/feedbackScreen.tsx:130-136 | only the rating changes, to 1 to 5 stars; this happens only while no request is in flight |
| Feedback.FeedbackScreen.SubmitEnabled | src/app/feedbackScreen.tsx:248-250 | the button is enabled exactly when the form would be accepted and no request is in flight |
| Feedback.FeedbackScreen.Submit | src/app/feedbackScreen.tsx:26-56 | the result is `Validate(form)`; on rejection nothing changes and nothing is sent; on acceptance `isSubmitting` turns true and exactly one request, built from the form, is sent; the form keeps its values |
| Feedback.FeedbackScreen.Resolve | src/app/feedbackScreen.tsx:58-114 | success clears feedback, e-mail and rating to '', '' and 0; failure keeps them and offers a retry; `isSubmitting` ends false either way, and nothing more is sent |
| Feedback.RetryAfterFailure | src/app/feedbackScreen.tsx:26-111 | a failed attempt followed by a retry sends two requests: the first is built from the form, and the retry re-sends the same fields with a fresh timestamp |

## Left out

- Rendering, styles, navigation and the tab layout (`src/home/styles.ts`, `src/app/_layout.tsx`, `src/App.tsx`), including text truncation, the empty-list placeholders and the date formatting (`formatDate`, `toLocaleDateString`), which depends on the locale.
- All `Animated` code. Removing a task takes effect at once here; in the source the exit animation only delays the removal.
- JSON encoding and decoding and the storage library. A slot holds the decoded list. A malformed stored value, which the source's `catch` would turn into a failed read, is a failed read (`readOk == false`).
- The asynchronous ordering of storage writes. Each write completes before the next handler runs, so the model has no lost or reordered writes.
- The network layer: `fetch`, `FormData`, the endpoint, the headers, parsing the server's error message, and the `setTimeout` delays before navigating back and before retrying. The request is recorded in `sent`, and its outcome is the `ok` argument of `Resolve`. The success dialog's navigation back (`onBack`) is left out.
- The alert dialogs. Only their effect is modelled: a validation alert is a refused handler, and a confirmation dialog is the `confirmed` argument.
- The `maxLength` limits of the text inputs (100, 150, 500 and 1000 characters). The widget enforces them, not the handlers.
- Id uniqueness. Two adds in the same millisecond get the same id. No operation assumes unique ids: removal, toggle and save act on every record with the id. Only `TaskStore.ToggleMovesOne` takes, as a precondition, that exactly one task carries the toggled id.
- The add button's `disabled={!conteudo.trim()}` on both task screens, as a separate state. Only the handler's own three-unit check is modelled; `TaskStore.Accepts` proves that any input it accepts would have enabled the button.
- Notes.NotesScreen.constructor: requires that the notes already in the slot use palette colours. This holds because the screen is the only writer of the `notes` key, but the source itself loads whatever colours are stored.
- Notes.Edited: does not state `updatedAt >= createdAt`. The clock is a parameter, and the source does not guarantee that it never runs backwards.
- Text.Utf16Length: a Dafny `string` cannot hold an unpaired surrogate, while a JavaScript string can; the `length` and `trim()` of such a string are outside the model. Keyboard input does not produce one.
- Text.Trim: whitespace is ECMAScript's WhiteSpace and LineTerminator set, with the space separators (category Zs) listed by hand. A JavaScript engine using a newer Unicode version could treat more characters as whitespace.
- Feedback.IntString: covers integer ratings only. The rating is always an integer star count in the source.
