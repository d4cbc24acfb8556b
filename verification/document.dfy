/** The document-state machine of BlockEditor, as pure transition functions.
    A `State` is everything the editor window owns that the file operations
    read or change; the file system is an abstract map from paths to texts.
    Each `AfterX` function is the reference definition of one operation, and
    its contract states the outcomes the editor promises. */
module Document {

  datatype Option<T> = None | Some(value: T)

  /** The three answers of the Yes/No/Cancel question (True, False and None). */
  datatype Answer = Yes | No | Cancel

  type Path = string
  type Text = seq<char>
  type Store = map<Path, Text>

  datatype State = State(
    path: Option<Path>,   // the current file, or None for an untitled buffer
    modified: bool,       // are there unsaved changes?
    content: Text,        // the text buffer
    closed: bool,         // has the window been destroyed?
    store: Store,         // the files on disk
    title: string,        // the window title
    status: string)       // the status-bar text

  const AppName := "BlockEditor"
  const InitialTitle := "BlockEditor - Sin título"
  const ReadyMessage := " Listo"
  const SavedMessage := "Guardado correctamente"

  /** A path is present and non-empty (Python truthiness). This one test
      decides both whether a current file is set and whether a file dialog
      returned a path rather than being cancelled (None or ""). */
  predicate HasPath(p: Option<Path>) {
    p.Some? && p.value != ""
  }

  /** The state of a freshly opened window over the files `files`. */
  function Initial(files: Store): (s: State)
    ensures s.path == None && !s.modified && s.content == [] && !s.closed
    ensures s.store == files && s.title == InitialTitle && s.status == ReadyMessage
  {
    State(None, false, [], false, files, InitialTitle, ReadyMessage)
  }

  /** The title the window shows for a path and a modified flag. */
  function Title(path: Option<Path>, modified: bool): (t: string)
    ensures |t| == |AppName| + (if HasPath(path) then 3 + |path.value| else 0) + (if modified then 2 else 0)
    ensures t[..|AppName|] == AppName
    ensures HasPath(path) ==> t[|AppName|..|AppName| + 3 + |path.value|] == " - " + path.value
    ensures modified ==> t[|t| - 2..] == " *"
    ensures !HasPath(path) && !modified ==> t == AppName
  {
    var named := if HasPath(path) then AppName + " - " + path.value else AppName;
    if modified then named + " *" else named
  }

  /** The buffer is exactly the text of the current file on disk. */
  predicate Saved(s: State) {
    HasPath(s.path) && s.path.value in s.store && s.store[s.path.value] == s.content
  }

  /** A clean buffer hides no work: it is either on disk at its path or, when
      untitled, empty. */
  predicate Consistent(s: State) {
    !s.modified ==> if HasPath(s.path) then Saved(s) else s.content == []
  }

  /** The window title reflects the path and the flag, or is still the
      startup title of an untouched untitled window. */
  predicate TitleShown(s: State) {
    s.title == Title(s.path, s.modified)
    || (s.title == InitialTitle && s.path == None && !s.modified)
  }

  /** The text `t` can still be found: it is empty or some file holds it. */
  predicate Recoverable(t: Text, store: Store) {
    t == [] || t in store.Values
  }

  // ---------------------------------------------------------------------
  // Key events

  /** The `<Key>` handler: any key press marks the buffer modified. */
  function AfterKey(s: State): (r: State)
    ensures r.modified
    ensures r.path == s.path && r.content == s.content && r.store == s.store && r.closed == s.closed
    ensures r.title == Title(s.path, true) && r.status == s.status
    ensures Consistent(r) && TitleShown(r)
  {
    s.(modified := true, title := Title(s.path, true))
  }

  /** An edit that reaches the text widget without a key event, such as a
      middle-button paste: the buffer changes and no handler runs, so the
      flag and the title stay as they were. In a clean buffer it breaks
      `Consistent`: the flag says clean while the text is on no file. */
  function AfterMousePaste(s: State, text: Text): (r: State)
    ensures r.content == text && r.modified == s.modified && r.path == s.path
    ensures r.store == s.store && r.closed == s.closed && r.title == s.title && r.status == s.status
    ensures Consistent(s) && !s.modified && text != s.content ==> !Consistent(r)
  {
    s.(content := text)
  }

  // ---------------------------------------------------------------------
  // Saving

  /** A write of the buffer to `p`; on success `p` becomes the current file. */
  function AfterWrite(s: State, p: Path, writeOk: bool): (r: State)
    requires p != ""
    ensures !writeOk ==> r == s
    ensures writeOk ==> r.path == Some(p) && !r.modified && Saved(r)
    ensures writeOk ==> r.store == s.store[p := s.content] && r.status == SavedMessage
    ensures r.content == s.content && r.closed == s.closed
    ensures TitleShown(s) ==> TitleShown(r)
    ensures Consistent(s) ==> Consistent(r)
  {
    if writeOk then
      s.(store := s.store[p := s.content], path := Some(p), modified := false,
         title := Title(Some(p), false), status := SavedMessage)
    else s
  }

  /** "Save as": ask for a path, then write there. */
  function AfterSaveAs(s: State, pick: Option<Path>, writeOk: bool): (r: State)
    ensures !HasPath(pick) || !writeOk ==> r == s
    ensures HasPath(pick) && writeOk ==>
      r.path == pick && !r.modified && r.store == s.store[pick.value := s.content]
      && r.title == Title(pick, false) && r.status == SavedMessage
    ensures r.content == s.content && r.closed == s.closed
    ensures TitleShown(s) ==> TitleShown(r)
    ensures Consistent(s) ==> Consistent(r)
  {
    if !HasPath(pick) then s else AfterWrite(s, pick.value, writeOk)
  }

  /** "Save": write to the current file, or behave as "save as" when there is none.
      `pick` is what the save-as dialog would return; it is only consulted
      when no path is set. */
  function AfterSave(s: State, pick: Option<Path>, writeOk: bool): (r: State)
    ensures HasPath(s.path) && writeOk ==>
      r.path == s.path && !r.modified && r.store == s.store[s.path.value := s.content]
      && r.status == SavedMessage
    ensures HasPath(s.path) && !writeOk ==> r == s
    ensures !HasPath(s.path) ==> r == AfterSaveAs(s, pick, writeOk)
    ensures r == s || (!r.modified && Saved(r))
    ensures r.content == s.content && r.closed == s.closed
    ensures TitleShown(s) ==> TitleShown(r)
    ensures Consistent(s) ==> Consistent(r)
  {
    if HasPath(s.path) then AfterWrite(s, s.path.value, writeOk) else AfterSaveAs(s, pick, writeOk)
  }

  // ---------------------------------------------------------------------
  // The Yes/No/Cancel gate shared by "new", "open" and "exit"

  datatype Gated = Gated(proceed: bool, state: State)

  /** The save gate run before the buffer is discarded. */
  function Gate(s: State, answer: Answer, pick: Option<Path>, writeOk: bool): (g: Gated)
    ensures !s.modified ==> g == Gated(true, s)
    ensures s.modified && answer == Cancel ==> g == Gated(false, s)
    ensures s.modified && answer == No ==> g == Gated(true, s)
    ensures s.modified && answer == Yes ==>
      g.state == AfterSave(s, pick, writeOk) && (g.proceed <==> !g.state.modified)
    ensures !g.proceed ==> g.state == s && s.modified
    ensures g.proceed && s.modified && answer != No ==> Saved(g.state) && g.state.content == s.content
    ensures answer != Yes ==> g.state == s
    ensures Consistent(s) && g.proceed ==>
      (s.modified && answer == No) || Recoverable(s.content, g.state.store)
  {
    if !s.modified then Gated(true, s)
    else match answer
      case Yes =>
        var saved := AfterSave(s, pick, writeOk);
        Gated(!saved.modified, saved)
      case No => Gated(true, s)
      case Cancel => Gated(false, s)
  }

  // ---------------------------------------------------------------------
  // New, open, exit

  /** "New": after the gate, an empty untitled buffer. */
  function AfterNew(s: State, answer: Answer, pick: Option<Path>, writeOk: bool): (r: State)
    ensures !s.modified || answer == No ==>
      r.content == [] && r.path == None && !r.modified && r.store == s.store && r.title == AppName
      && r.status == s.status
    ensures s.modified && answer == Cancel ==> r == s
    ensures s.modified && answer == Yes && AfterSave(s, pick, writeOk).modified ==> r == s
    ensures s.modified && answer == Yes && !AfterSave(s, pick, writeOk).modified ==>
      r.content == [] && r.path == None && !r.modified
      && r.store == AfterSave(s, pick, writeOk).store && Saved(AfterSave(s, pick, writeOk))
      && r.title == AppName && r.status == AfterSave(s, pick, writeOk).status
    ensures r.closed == s.closed
    ensures TitleShown(s) ==> TitleShown(r)
    ensures Consistent(s) ==> Consistent(r)
    ensures Consistent(s) && r.content != s.content ==>
      (s.modified && answer == No) || Recoverable(s.content, r.store)
  {
    var g := Gate(s, answer, pick, writeOk);
    if g.proceed then
      g.state.(content := [], path := None, modified := false, title := Title(None, false))
    else g.state
  }

  /** The file-read primitive: the text of `p`, or None when the read fails. */
  function ReadFile(store: Store, p: Path, readOk: bool): (t: Option<Text>)
    ensures t.Some? <==> readOk && p in store
    ensures t.Some? ==> t.value == store[p]
  {
    if readOk && p in store then Some(store[p]) else None
  }

  /** "Open": after the gate, ask for a file and load it. */
  function AfterOpen(s: State, answer: Answer, savePick: Option<Path>, writeOk: bool,
                     openPick: Option<Path>, readOk: bool): (r: State)
    ensures var g := Gate(s, answer, savePick, writeOk);
      !g.proceed || !HasPath(openPick) || ReadFile(g.state.store, openPick.value, readOk).None? ==>
        r == g.state
    ensures var g := Gate(s, answer, savePick, writeOk);
      g.proceed && HasPath(openPick) && ReadFile(g.state.store, openPick.value, readOk).Some? ==>
        r.content == g.state.store[openPick.value] && r.path == openPick && !r.modified
        && r.store == g.state.store && r.title == Title(openPick, false) && r.status == g.state.status
    ensures s.modified && answer == Cancel ==> r == s
    ensures r.store == s.store || (s.modified && answer == Yes)
    ensures r.closed == s.closed
    ensures TitleShown(s) ==> TitleShown(r)
    ensures Consistent(s) ==> Consistent(r)
    ensures Consistent(s) && r.content != s.content ==>
      (s.modified && answer == No) || Recoverable(s.content, r.store)
  {
    var g := Gate(s, answer, savePick, writeOk);
    if !g.proceed || !HasPath(openPick) then g.state
    else match ReadFile(g.state.store, openPick.value, readOk)
      case None => g.state
      case Some(text) =>
        g.state.(content := text, path := openPick, modified := false, title := Title(openPick, false))
  }

  /** "Exit": after the gate, destroy the window. */
  function AfterQuit(s: State, answer: Answer, pick: Option<Path>, writeOk: bool): (r: State)
    ensures r.closed <==> s.closed || Gate(s, answer, pick, writeOk).proceed
    ensures !s.modified || answer == No ==> r == s.(closed := true)
    ensures s.modified && answer == Cancel ==> r == s
    ensures s.modified && answer == Yes && AfterSave(s, pick, writeOk).modified ==> r == s
    ensures s.modified && answer == Yes && !AfterSave(s, pick, writeOk).modified ==>
      r == AfterSave(s, pick, writeOk).(closed := true) && Saved(r)
    ensures r.content == s.content
    ensures TitleShown(s) ==> TitleShown(r)
    ensures Consistent(s) ==> Consistent(r)
    ensures Consistent(s) && r.closed && !s.closed ==>
      (s.modified && answer == No) || Recoverable(s.content, r.store)
  {
    var g := Gate(s, answer, pick, writeOk);
    if g.proceed then g.state.(closed := true) else g.state
  }
}
