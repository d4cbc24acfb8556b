/** Editing sessions: sequences of user events run through the document-state
    machine, and what holds along every session. */
module Sessions {
  import opened Document

  /** One user event, carrying the replies of the dialogs it opens and the
      outcomes of its file operations. `KeyPress(text)` is a key press
      after which the buffer reads `text` (unchanged for a key that does
      not edit). */
  datatype Event =
    | KeyPress(text: Text)
    | MenuNew(answer: Answer, savePick: Option<Path>, writeOk: bool)
    | MenuOpen(answer: Answer, savePick: Option<Path>, writeOk: bool, openPick: Option<Path>, readOk: bool)
    | MenuSave(savePick: Option<Path>, writeOk: bool)
    | MenuSaveAs(savePick: Option<Path>, writeOk: bool)
    | MenuExit(answer: Answer, savePick: Option<Path>, writeOk: bool)

  /** The state after one event. */
  function Step(s: State, e: Event): (r: State)
    ensures e.KeyPress? ==> r.modified
    ensures r.modified && !e.KeyPress? ==> s.modified && r.content == s.content && r.path == s.path
    ensures Consistent(s) ==> Consistent(r)
    ensures TitleShown(s) ==> TitleShown(r)
  {
    match e
    case KeyPress(text) => AfterKey(s).(content := text)
    case MenuNew(answer, pick, ok) => AfterNew(s, answer, pick, ok)
    case MenuOpen(answer, pick, ok, openPick, readOk) => AfterOpen(s, answer, pick, ok, openPick, readOk)
    case MenuSave(pick, ok) => AfterSave(s, pick, ok)
    case MenuSaveAs(pick, ok) => AfterSaveAs(s, pick, ok)
    case MenuExit(answer, pick, ok) => AfterQuit(s, answer, pick, ok)
  }

  /** The state after a session; once the window is closed nothing more happens. */
  function Run(s: State, events: seq<Event>): State
    decreases |events|
  {
    if events == [] || s.closed then s else Run(Step(s, events[0]), events[1..])
  }

  lemma {:induction false} RunAppend(s: State, a: seq<Event>, b: seq<Event>)
    ensures Run(s, a + b) == Run(Run(s, a), b)
    decreases |a|
  {
    if a == [] {
      assert a + b == b;
    } else if !s.closed {
      assert (a + b)[1..] == a[1..] + b;
      RunAppend(Step(s, a[0]), a[1..], b);
    }
  }

  /** The editor's invariants hold along every session that starts in a state satisfying them. */
  lemma {:induction false} RunKeepsInvariants(s: State, events: seq<Event>)
    requires Consistent(s) && TitleShown(s)
    ensures Consistent(Run(s, events)) && TitleShown(Run(s, events))
    decreases |events|
  {
    if events != [] && !s.closed {
      RunKeepsInvariants(Step(s, events[0]), events[1..]);
    }
  }

  /** A clean buffer only becomes dirty through a key press. */
  lemma {:induction false} DirtyNeedsKeyPress(s: State, events: seq<Event>)
    requires !s.modified && Run(s, events).modified
    ensures exists i :: 0 <= i < |events| && events[i].KeyPress?
    decreases |events|
  {
    if !events[0].KeyPress? {
      var t := Step(s, events[0]);
      DirtyNeedsKeyPress(t, events[1..]);
      var i :| 0 <= i < |events[1..]| && events[1..][i].KeyPress?;
      assert events[i + 1].KeyPress?;
    }
  }

  /** A key press on an open window always leaves the buffer dirty. */
  lemma KeyPressMakesDirty(s: State, events: seq<Event>, text: Text)
    requires !Run(s, events).closed
    ensures Run(s, events + [KeyPress(text)]).modified
  {
    RunAppend(s, events, [KeyPress(text)]);
  }

  /** Typing "hello", saving it as /tmp/a.txt, typing "!" and saving again
      leaves "hello!" in /tmp/a.txt and a clean buffer. */
  lemma SaveAsThenSave(files: Store)
    ensures var r := Run(Initial(files), [
        KeyPress("hello"),
        MenuSaveAs(Some("/tmp/a.txt"), true),
        KeyPress("hello!"),
        MenuSave(None, true)]);
      r.store["/tmp/a.txt"] == "hello!" && !r.modified && r.path == Some("/tmp/a.txt")
  {
  }

  /** A dirty buffer, "open", answer Yes, and the save fails: the open dialog
      has no effect and the buffer is intact. */
  lemma FailedSaveBlocksOpen(files: Store, openPick: Option<Path>, readOk: bool)
    ensures var s := Run(Initial(files), [KeyPress("draft")]);
      var r := Run(s, [MenuOpen(Yes, Some("/tmp/b.txt"), false, openPick, readOk)]);
      r == s && r.content == "draft" && r.modified
  {
  }

  /** A dirty buffer, "exit", answer No: the window closes and no file is written. */
  lemma DiscardOnExitWritesNothing(files: Store, savePick: Option<Path>, writeOk: bool)
    ensures var r := Run(Initial(files), [KeyPress("draft"), MenuExit(No, savePick, writeOk)]);
      r.closed && r.store == files
  {
    var s := Step(Initial(files), KeyPress("draft"));
    assert s.modified && s.store == files;
    assert Run(Initial(files), [KeyPress("draft"), MenuExit(No, savePick, writeOk)])
        == Run(s, [MenuExit(No, savePick, writeOk)]);
  }

  /** "New" at the end of any session of key presses and menu commands from
      a consistent state replaces the buffer only if the user answered No or
      its text is held by some file. */
  lemma NewAfterSessionKeepsWork(s: State, events: seq<Event>, answer: Answer, pick: Option<Path>, writeOk: bool)
    requires Consistent(s) && TitleShown(s)
    ensures var before := Run(s, events);
      var r := Run(s, events + [MenuNew(answer, pick, writeOk)]);
      r.content != before.content ==>
        (before.modified && answer == No) || Recoverable(before.content, r.store)
  {
    RunAppend(s, events, [MenuNew(answer, pick, writeOk)]);
    RunKeepsInvariants(s, events);
  }

  /** Ctrl+N typed in the text area: the text widget's `<Key>` binding runs
      before the window's `<Control-n>` binding, so a clean buffer is first
      marked modified and "new" then asks whether to save it. Answering
      Cancel leaves the unchanged buffer in place and marked modified. */
  lemma ShortcutNewAsksOnCleanBuffer(s: State, pick: Option<Path>, writeOk: bool)
    requires !s.modified && !s.closed
    ensures var r := Run(s, [KeyPress(s.content), MenuNew(Cancel, pick, writeOk)]);
      r.content == s.content && r.path == s.path && r.modified && !r.closed
  {
    var k := Step(s, KeyPress(s.content));
    assert k.modified && !k.closed && k.content == s.content && k.path == s.path;
    assert Run(s, [KeyPress(s.content), MenuNew(Cancel, pick, writeOk)])
        == Run(k, [MenuNew(Cancel, pick, writeOk)]);
    assert [MenuNew(Cancel, pick, writeOk)][1..] == [];
    assert Run(k, [MenuNew(Cancel, pick, writeOk)]) == AfterNew(k, Cancel, pick, writeOk) == k;
  }

  /** A middle-button paste into a clean untitled window does not mark it
      modified, so "new" then throws the pasted text away without asking,
      whatever the answer parameter would have been. */
  lemma PasteThenNewLosesText(files: Store, answer: Answer, pick: Option<Path>, writeOk: bool)
    requires "draft" !in files.Values
    ensures var r := AfterNew(AfterMousePaste(Initial(files), "draft"), answer, pick, writeOk);
      r.content == [] && !Recoverable("draft", r.store)
  {
  }
}
