/** The BlockEditor window as an object whose handlers update its fields in
    place. The dialogs and the file primitives are inputs: `answer` is the
    Yes/No/Cancel reply, `savePick`/`openPick` what a file dialog returned,
    `writeOk`/`readOk` whether the file operation succeeds. Every handler is
    proved to produce the state its `Document.AfterX` function describes. */
module Editor {
  import opened Document

  class BlockEditor {
    var path: Option<Path>
    var modified: bool
    var content: Text
    var closed: bool
    var store: Store
    var title: string
    var status: string

    /** The whole observable state as a value. */
    function State(): State
      reads this
    {
      Document.State(path, modified, content, closed, store, title, status)
    }

    /** The invariant every handler keeps: no unsaved work hides behind a
        clean flag, and the title matches the state. */
    ghost predicate Valid()
      reads this
    {
      Consistent(State()) && TitleShown(State())
    }

    constructor (files: Store)
      ensures Valid() && State() == Initial(files)
    {
      path := None;
      modified := false;
      content := [];
      closed := false;
      store := files;
      title := InitialTitle;
      status := ReadyMessage;
    }

    /** Called on every key press in the text area. */
    method TextModified()
      requires Valid()
      modifies this
      ensures Valid() && State() == AfterKey(old(State()))
    {
      modified := true;
      UpdateTitle();
    }

    /** The text widget's own edit, which follows the `<Key>` handler; it
        replaces the buffer and nothing else. */
    method TypeText(text: Text)
      requires Valid() && modified
      modifies this
      ensures Valid() && State() == old(State()).(content := text)
    {
      content := text;
    }

    method UpdateTitle()
      modifies this
      ensures title == Title(path, modified)
      ensures path == old(path) && modified == old(modified) && content == old(content)
      ensures closed == old(closed) && store == old(store) && status == old(status)
    {
      var t := AppName;
      if HasPath(path) {
        t := t + " - " + path.value;
      }
      if modified {
        t := t + " *";
      }
      title := t;
    }

    /** Shows a message in the status bar. */
    method ShowTransientMessage(text: string)
      modifies this
      ensures status == text
      ensures path == old(path) && modified == old(modified) && content == old(content)
      ensures closed == old(closed) && store == old(store) && title == old(title)
    {
      status := text;
    }

    method NewFile(answer: Answer, savePick: Option<Path>, writeOk: bool)
      requires Valid()
      modifies this
      ensures Valid() && State() == AfterNew(old(State()), answer, savePick, writeOk)
    {
      if modified {
        if answer == Yes {
          SaveFile(savePick, writeOk);
          if modified {
            return;
          }
        } else if answer == No {
          // discard the changes and carry on
        } else {
          return;
        }
      }
      content := [];
      path := None;
      modified := false;
      UpdateTitle();
    }

    method OpenFile(answer: Answer, savePick: Option<Path>, writeOk: bool,
                    openPick: Option<Path>, readOk: bool)
      requires Valid()
      modifies this
      ensures Valid()
      ensures State() == AfterOpen(old(State()), answer, savePick, writeOk, openPick, readOk)
    {
      if modified {
        if answer == Yes {
          SaveFile(savePick, writeOk);
          if modified {
            return;
          }
        } else if answer == Cancel {
          return;
        }
      }
      if !HasPath(openPick) {
        return;
      }
      var text := ReadFile(store, openPick.value, readOk);
      if text.Some? {
        content := text.value;
        path := openPick;
        modified := false;
        UpdateTitle();
      }
    }

    method SaveFile(savePick: Option<Path>, writeOk: bool)
      requires Valid()
      modifies this
      ensures Valid() && State() == AfterSave(old(State()), savePick, writeOk)
    {
      if HasPath(path) {
        if writeOk {
          store := store[path.value := content];
          modified := false;
          UpdateTitle();
          ShowTransientMessage(SavedMessage);
        }
        return;
      }
      SaveAs(savePick, writeOk);
    }

    method SaveAs(savePick: Option<Path>, writeOk: bool)
      requires Valid()
      modifies this
      ensures Valid() && State() == AfterSaveAs(old(State()), savePick, writeOk)
    {
      if !HasPath(savePick) {
        return;
      }
      if writeOk {
        store := store[savePick.value := content];
        path := savePick;
        modified := false;
        UpdateTitle();
        ShowTransientMessage(SavedMessage);
      }
    }

    method Quit(answer: Answer, savePick: Option<Path>, writeOk: bool)
      requires Valid()
      modifies this
      ensures Valid() && State() == AfterQuit(old(State()), answer, savePick, writeOk)
    {
      if modified {
        if answer == Yes {
          SaveFile(savePick, writeOk);
          if modified {
            return;
          }
        } else if answer == Cancel {
          return;
        }
      }
      closed := true;
    }
  }
}
