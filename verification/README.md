# BlockEditor document-state machine in Dafny

BlockEditor is a small tkinter text editor: one window, one text area and an
"Archivo" menu with Nuevo, Abrir, Guardar, Guardar como and Salir. This project
models the logic behind that menu. The editor keeps the current file
(`archivo_actual`), an unsaved-changes flag (`modificado`), the text buffer and
whether the window is still open. A Yes/No/Cancel save gate runs before "new",
"open" and "exit" throw the buffer away.

The model has three modules:

- `Document` (document.dfy) is the specification. A `State` value holds the path, the
  flag, the buffer, the closed flag, an abstract file store
  (`map<string, seq<char>>`), the window title and the status-bar text.
  Each operation is a pure transition function `AfterX`. Its contract states
  the success, user-cancel and I/O-failure outcomes. Two invariants are
  stated here. `Consistent` says a clean buffer is on disk at its path, or is
  empty when untitled. `TitleShown` says the title matches the state. The
  contracts of `Gate`, `AfterNew`, `AfterOpen` and `AfterQuit` also prove that,
  as long as every edit arrives through a key press and only the editor
  writes the files, no operation throws away unsaved text unless the user
  answered "No". `AfterMousePaste` models an edit that arrives without a key
  press, which breaks that guarantee (see Findings).
- `Editor` (editor.dfy) is the window as a class, `BlockEditor`. Its fields are
  updated in place by handlers written like the source's methods, early
  `return`s included. Each handler is proved to reach the state its `AfterX`
  function gives, and each keeps the class invariant. The three copies of
  the gate are kept as written. In `NewFile` it is `Yes / No: pass / else
  return`; in `OpenFile` and `Quit` it is `Yes / Cancel: return`. All three
  are proved against the one `Gate` function, so they behave identically on
  every answer.
- `Sessions` (sessions.dfy) covers sequences of events. It proves that the
  invariants hold along every session, that the flag becomes true only
  through a key press, and proves three concrete sessions: save-as then save,
  a failed save that blocks "open", and discarding on exit. It also states
  the two defects listed under Findings.

Dialogs and I/O are parameters of each operation:

- `answer: Answer` is the `askyesnocancel` reply: `Yes`, `No` or `Cancel` for True, False or None.
- `savePick` and `openPick` are what a file dialog returned. `None` or `""` means
  cancelled, following the source's `if not ruta`.
- `writeOk` and `readOk` say whether the file operation succeeds. A read also
  fails when the path is not in the store.

On "Yes", the gate runs the save and then re-checks the flag. A failed
write, or a cancelled save-as dialog, leaves the flag true, and the
operation stops.

Where the source's comments and its code differ, the model follows the
code:

- The docstring of `texto_modificado` (4_Editor_texto.py:63) says it runs whenever the
  user types or deletes. Its `<Key>` binding actually runs on every key press,
  including keys that do not edit, and on no edit that arrives without a key
  press. So "modified" means "a key was pressed in the text area since the
  last load, save or "new"", not "the text was edited".
- The comment at 4_Editor_texto.py:99 says "new" shows "Sin título". In fact the title after
  "new" is plain `BlockEditor`, because `actualizar_titulo` never produces "Sin título".
  Only the constructor shows it, as the startup title.

The keyboard shortcuts Ctrl+N, Ctrl+O and Ctrl+S (4_Editor_texto.py:58-60) are bound on the
window, but `<Key>` is bound on the text widget, and Tk runs the widget's
binding first. A shortcut typed in the text area is therefore a `KeyPress`
followed by the menu event. For Ctrl+O, Tk's own text bindings also insert a
newline, so that `KeyPress` carries the buffer with the newline added. A
`Sessions` run expresses both.

## Model

| member | source | states |
|---|---|---|
| Document.Initial | 4_Editor_texto.py:9-21 | a new window has no path, a clean empty buffer, the startup title "BlockEditor - Sin título" and the status " Listo" |
| Document.Title | 4_Editor_texto.py:67-73 | the title starts with "BlockEditor", then " - <path>" exactly when a non-empty path is set, and ends with " *" when modified; it is exactly "BlockEditor" for a clean untitled buffer |
| Document.AfterKey | 4_Editor_texto.py:62-65 | a key event sets the modified flag, changes neither path, buffer, files nor closed flag, and retitles with " *"; it keeps both invariants |
| Document.AfterMousePaste | 4_Editor_texto.py:35 | an edit without a key press replaces the buffer and leaves the flag, path, files, title and status bar as they were; on a clean buffer whose text it changes, it breaks Consistent |
| Document.AfterWrite | 4_Editor_texto.py:153-165 | a successful write stores exactly the buffer at the path, makes it the current file, clears the flag and shows "Guardado correctamente"; a failed write changes nothing |
| Document.AfterSaveAs | 4_Editor_texto.py:171-199 | a cancelled dialog or a failed write changes nothing; success stores the buffer at the chosen path (no other file changes), sets the path to it, clears the flag and retitles |
| Document.AfterSave | 4_Editor_texto.py:150-169 | with a path set, success writes the buffer there, keeps the path and clears the flag, and failure changes nothing; with no path it is exactly "save as"; the result is unchanged or clean and saved |
| Document.Gate | 4_Editor_texto.py:77-93 | a clean buffer proceeds without asking; Cancel stops with nothing changed; No proceeds without writing; Yes saves first and proceeds exactly when the flag is clear afterwards, so a failed or cancelled save stops the operation; from a consistent state it proceeds only on No or with the buffer's text held by some file (or empty) |
| Document.AfterNew | 4_Editor_texto.py:75-99 | after the gate proceeds (clean, No, or Yes with a successful save) the buffer is empty, the path None, the flag clear and the title "BlockEditor", and the status bar is the one the gate left, with no file written on No; Cancel, or Yes with a failed save, changes nothing; from a consistent state the buffer is replaced only on No or with its text held by some file |
| Document.ReadFile | 4_Editor_texto.py:131-134 | a read succeeds exactly when the file exists and the read does not fail, and then yields that file's text |
| Document.AfterOpen | 4_Editor_texto.py:102-147 | a stopped gate, an empty or cancelled dialog or a read failure leave the post-gate state; success loads the file's text, sets the path to it, clears the flag and leaves the status bar as the gate left it; the store changes only through a Yes-save; from a consistent state the buffer is replaced only on No or with its text held by some file |
| Document.AfterQuit | 4_Editor_texto.py:210-228 | the window closes exactly when the gate proceeds; the buffer is never changed; on No the window closes with no file written; Cancel, or Yes with a failed save, changes nothing; Yes with a successful save leaves exactly the saved state, closed; from a consistent state the window closes only on No or with the buffer's text held by some file |
| Editor.BlockEditor.constructor | 4_Editor_texto.py:9-21 | the window starts in the initial state and satisfies the class invariant |
| Editor.BlockEditor.TextModified | 4_Editor_texto.py:62-65 | the key handler reaches AfterKey of the old state and keeps the invariant |
| Editor.BlockEditor.TypeText | 4_Editor_texto.py:25-35 | the text widget's own edit, after the key handler, replaces the buffer and nothing else |
| Editor.BlockEditor.UpdateTitle | 4_Editor_texto.py:67-73 | the title built with `+=` equals Title(path, modified); nothing else changes |
| Editor.BlockEditor.ShowTransientMessage | 4_Editor_texto.py:201-203 | the status bar shows the given text; nothing else changes |
| Editor.BlockEditor.NewFile | 4_Editor_texto.py:75-99 | this copy of the gate (Yes / No: pass / else return) and the clearing reach AfterNew of the old state |
| Editor.BlockEditor.OpenFile | 4_Editor_texto.py:102-147 | this copy of the gate (Yes / Cancel: return), the dialog check and the load reach AfterOpen of the old state |
| Editor.BlockEditor.SaveFile | 4_Editor_texto.py:150-169 | the save handler reaches AfterSave of the old state |
| Editor.BlockEditor.SaveAs | 4_Editor_texto.py:171-199 | the save-as handler reaches AfterSaveAs of the old state |
| Editor.BlockEditor.Quit | 4_Editor_texto.py:210-228 | this copy of the gate (Yes / Cancel: return) and destroy reach AfterQuit of the old state |
| Sessions.Step | 4_Editor_texto.py:50-60 | every menu command or key event keeps both invariants; a key press leaves the buffer dirty, and any other event that leaves it dirty found it dirty and kept its text and path |
| Sessions.RunKeepsInvariants | 4_Editor_texto.py:75-199 | along any session, a clean buffer stays on disk at its path (or empty when untitled) and the title keeps matching the state |
| Sessions.DirtyNeedsKeyPress | 4_Editor_texto.py:62-65 | a clean buffer becomes dirty only if some event of the session is a key press |
| Sessions.KeyPressMakesDirty | 4_Editor_texto.py:62-65 | a key press at the end of any session on an open window leaves the buffer dirty |
| Sessions.NewAfterSessionKeepsWork | 4_Editor_texto.py:75-99 | after any session of key presses and menu commands from a consistent state, "new" replaces the buffer only on No or with its text held by some file |
| Sessions.ShortcutNewAsksOnCleanBuffer | 4_Editor_texto.py:35-60 | Ctrl+N in the text area on a clean buffer is a key press then "new"; answering Cancel leaves the unchanged buffer and path in place, now marked modified |
| Sessions.PasteThenNewLosesText | 4_Editor_texto.py:75-99 | after a paste without a key press into a clean untitled window, "new" empties the buffer and no file holds the pasted text, whatever the answer |
| Sessions.SaveAsThenSave | 4_Editor_texto.py:150-199 | typing "hello", "save as" /tmp/a.txt, typing "!" and "save" leave "hello!" in /tmp/a.txt and a clean buffer at that path |
| Sessions.FailedSaveBlocksOpen | 4_Editor_texto.py:109-112 | dirty buffer, "open", Yes and a failed save: the open dialog has no effect and the buffer is intact and dirty |
| Sessions.DiscardOnExitWritesNothing | 4_Editor_texto.py:218-228 | dirty buffer, "exit", No: the window closes and the file store is untouched |

## Left out

- Widget construction, layout, colours, fonts, scrollbar and menu building are GUI wiring. The keyboard shortcuts are not separate events: a shortcut typed in the text area is a `KeyPress` followed by the menu event, and a shortcut typed elsewhere is the menu event alone.
- The message boxes and file dialogs are not modelled as UI. Their replies are parameters. The error boxes shown after a failed read or write are not recorded, because they change no state.
- Real file I/O and UTF-8 encoding are not modelled. Files are an abstract map, and a write or read either succeeds or fails. A failed write leaves the store unchanged, although a real `open(..., "w")` may already have truncated the file.
- The trailing newline that the text widget adds and `get(..., END + "-1c")` strips is not modelled. The buffer is a plain character sequence.
- Edits that arrive without a key press, such as a middle-button paste, are not `Sessions` events. They appear only as `AfterMousePaste` and the Findings lemma. In the program, such an edit into a clean buffer that changes its text, or a write by another program to the current file while the buffer is clean, makes `Consistent` false. After that, "new", "open" and "exit" can discard text without asking, so the no-loss guarantees of `Gate`, `AfterNew`, `AfterOpen`, `AfterQuit` and `Sessions` do not cover it.
- Editor.BlockEditor.ShowTransientMessage: the three-second timer that resets the status bar to " Listo", and the cancelling of an earlier pending timer, are event-loop scheduling and are not modelled.
- `mainloop` and `destroy` are modelled only as the `closed` flag. Once the window is closed, a session ignores any further events.

## Findings

| source | as written | input that shows it | evidently intended | confidence | as-written member | corrected member |
|---|---|---|---|---|---|---|
| 4_Editor_texto.py:35-60 | `<Key>` on the text widget runs before the window's Ctrl+N binding and marks a clean buffer modified | a clean buffer, Ctrl+N typed in the text area, answer Cancel: the user is asked to save unchanged text, and afterwards the buffer is marked modified | a shortcut behaves like its menu command, so "new" on a clean buffer proceeds without asking | medium, not executed (depends on Tk's default binding order) | Sessions.ShortcutNewAsksOnCleanBuffer | Document.AfterNew |
| 4_Editor_texto.py:35-65 | only a key press sets `modificado`; a middle-button paste changes the text and leaves it False | a clean untitled window, paste "draft" with the mouse, then Nuevo: the text is discarded without a prompt and no file holds it | every change to the text marks the buffer modified, as the docstring at line 63 says, so no discard happens without the Yes/No/Cancel question | medium, not executed | Sessions.PasteThenNewLosesText | Sessions.NewAfterSessionKeepsWork |
