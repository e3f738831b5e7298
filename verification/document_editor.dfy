/**
 * The markdown document editor's save loop: a dirty flag, one 30-second
 * save interval started lazily by the first edit, and a save whose reply
 * clears the flag. Timer ticks and server replies are method calls; the
 * markdown rendering itself is not modelled.
 */
module DocumentEditor {
  import opened Wrappers

  /** The text shown when the document cannot be loaded. */
  const DefaultMarkdown := "# Document Title"

  /** The editor colour scheme for a theme flag: the alternative theme is dark. */
  function CodeTheme(altTheme: bool): (r: string)
    ensures r == "vs-dark" || r == "vs-light"
    ensures r == "vs-dark" <==> altTheme
  {
    if altTheme then "vs-dark" else "vs-light"
  }

  /** The save interval subscription: never created, or created and maybe cancelled. */
  datatype SaveInterval = NoInterval | Subscribed(cancelled: bool)

  /** The code editor's options. */
  datatype EditorOptions = EditorOptions(
    theme: string,
    language: string,
    minimap: bool,
    lineNumbers: string,
    quickSuggestions: bool,
    readOnly: bool,
    wordWrap: string,
    scrollBeyondLastLine: bool)

  /** The request `save` sends: the document id and its full text. */
  datatype DocumentUpdate = DocumentUpdate(id: string, text: string)

  class DocumentEditorComponent {
    var id: string
    var dirty: bool
    var markdown: string
    var codeTheme: string
    var editorOptions: EditorOptions
    var saveInterval: SaveInterval

    /** Unsaved edits always have a save interval behind them. */
    ghost predicate Valid()
      reads this
    {
      dirty ==> saveInterval.Subscribed?
    }

    /** `altTheme` is the stored local theme setting (absent counts as false). */
    constructor (altTheme: Option<bool>)
      ensures Valid()
      ensures id == "" && !dirty && markdown == "" && saveInterval == NoInterval
      ensures codeTheme == CodeTheme(altTheme == Some(true))
      ensures editorOptions == EditorOptions(codeTheme, "markdown", false, "on", false, false, "on", false)
    {
      id := "";
      dirty := false;
      markdown := "";
      codeTheme := CodeTheme(altTheme == Some(true));
      editorOptions := EditorOptions(CodeTheme(altTheme == Some(true)), "markdown", false, "on", false, false, "on", false);
      saveInterval := NoInterval;
    }

    /** Takes the route key as the document id and returns the id it requests. */
    method Init(key: string) returns (request: string)
      modifies this`id
      ensures id == key && request == key
    {
      id := key;
      request := id;
    }

    /** The reply to the document request; a failed request shows the default title. */
    method DocumentLoaded(reply: Option<string>)
      modifies this`markdown
      ensures reply.Some? ==> markdown == reply.value
      ensures reply.None? ==> markdown == DefaultMarkdown
    {
      markdown := if reply.Some? then reply.value else DefaultMarkdown;
    }

    /** An edit: the document becomes dirty and the save interval exists, created at most once. */
    method ReRender()
      requires Valid()
      modifies this`dirty, this`saveInterval
      ensures Valid() && dirty
      ensures old(saveInterval).Subscribed? ==> saveInterval == old(saveInterval)
      ensures old(saveInterval).NoInterval? ==> saveInterval == Subscribed(false)
    {
      if !dirty {
        if saveInterval.NoInterval? {
          saveInterval := Subscribed(false);
        }
      }
      dirty := true;
    }

    /** A save (button or interval tick): an update is sent exactly when there are unsaved edits. */
    method Save() returns (request: Option<DocumentUpdate>)
      ensures request.Some? <==> dirty
      ensures request.Some? ==> request.value.id == id && request.value.text == markdown
    {
      if dirty {
        request := Some(DocumentUpdate(id, markdown));
      } else {
        request := None;
      }
    }

    /**
     * The reply to an update: success clears the flag, even when further
     * edits arrived while the request was in flight; failure keeps it.
     */
    method SaveReplied(ok: bool)
      requires Valid()
      modifies this`dirty
      ensures Valid()
      ensures ok ==> !dirty
      ensures !ok ==> dirty == old(dirty)
    {
      if ok {
        dirty := false;
      }
    }

    /** The toolbar's theme stream: only the theme of the editor options changes. */
    method ThemeChanged(altTheme: bool)
      modifies this`codeTheme, this`editorOptions
      ensures codeTheme == CodeTheme(altTheme)
      ensures editorOptions == old(editorOptions).(theme := codeTheme)
    {
      codeTheme := CodeTheme(altTheme);
      UpdateEditorOptions();
    }

    method UpdateEditorOptions()
      modifies this`editorOptions
      ensures editorOptions == old(editorOptions).(theme := codeTheme)
    {
      editorOptions := editorOptions.(theme := codeTheme);
    }

    /** Cancels the save interval if one exists. */
    method Destroy()
      modifies this`saveInterval
      ensures old(saveInterval).Subscribed? ==> saveInterval == Subscribed(true)
      ensures old(saveInterval).NoInterval? ==> saveInterval == NoInterval
    {
      if saveInterval.Subscribed? {
        saveInterval := Subscribed(true);
      }
    }
  }
}
