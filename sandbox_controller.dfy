/**
 * The code-sandbox controller as the page runs it: module-level variables
 * updated in place by the event handlers. Every method is proved to take the
 * object from a state to the state the matching step function of SandboxSpec
 * gives, so the lemmas proved there hold of the handlers.
 */
module SandboxController {
  import opened Buffers
  import opened Preview
  import opened SandboxSpec

  class Controller {
    /** `editorState`: the three buffers. */
    var editorState: map<Lang, string>
    /** The browser's `localStorage`. */
    var store: map<string, string>
    var currentLang: Lang
    /** The tab whose element carries the `active` class. */
    var activeTab: Lang
    /** `monacoEditor`: None while it is null, otherwise the text it shows. */
    var editor: Option<string>
    var isCodingRoomOpen: bool
    /** The `srcdoc` of the live-preview frame. */
    var srcdoc: string
    /** Whether the debounced `runCode` is scheduled and has not fired yet. */
    var runPending: bool

    /** The object's state as a value. */
    function State(): SandboxState
      reads this
    {
      SandboxState(editorState, store, currentLang, activeTab, editor, isCodingRoomOpen, srcdoc, runPending)
    }

    /** Page load: the buffers are seeded from the store, the HTML tab is current. */
    constructor (initialStore: map<string, string>)
      ensures State() == Load(initialStore)
    {
      editorState := map[Html := Seed(initialStore, Html), Css := Seed(initialStore, Css), Js := Seed(initialStore, Js)];
      store := initialStore;
      currentLang, activeTab := Html, Html;
      editor := None;
      isCodingRoomOpen := false;
      srcdoc := "";
      runPending := false;
    }

    /** `saveCode`: write the editor's text through to the current buffer and the store. */
    method SaveCode()
      requires Stored(State())
      modifies this
      ensures State() == SandboxSpec.SaveCode(old(State()))
    {
      if editor.None? {
        return;
      }
      var value := editor.value;
      editorState := editorState[currentLang := value];
      store := store[StoreKey(currentLang) := value];
    }

    /** `runCode`: compose the preview document and hand it to the frame. */
    method RunCode()
      requires Inv(State())
      modifies this
      ensures State() == SandboxSpec.RunCode(old(State()))
    {
      var html := editorState[Html];
      var css := editorState[Css];
      var js := editorState[Js];
      srcdoc := PreviewDocument(html, css, js);
    }

    /** The click handler of the tab for `target`. */
    method ClickTab(target: Lang)
      requires Stored(State()) && editor.Some?
      modifies this
      ensures State() == SandboxSpec.ClickTab(old(State()), target)
    {
      if target == activeTab {
        return;
      }
      editorState := editorState[currentLang := editor.value];
      store := store[StoreKey(currentLang) := editorState[currentLang]];
      currentLang := target;
      activeTab := target;
      editor := Some(editorState[currentLang]);
    }

    /** The user changes the editor's text; the change handler saves and schedules a run. */
    method Edit(text: string)
      requires Stored(State()) && editor.Some?
      modifies this
      ensures State() == SandboxSpec.Edit(old(State()), text)
    {
      editor := Some(text);
      SaveCode();
      runPending := true;
    }

    /** The debounce timer fires. */
    method FireRun()
      requires Inv(State())
      modifies this
      ensures State() == SandboxSpec.FireRun(old(State()))
    {
      if runPending {
        RunCode();
        runPending := false;
      }
    }

    /** `initMonaco`: create the editor on the current buffer and run once. */
    method InitEditor()
      requires Complete(editorState) && activeTab == currentLang && AllPersisted(store, editorState)
      requires editor.Some? ==> Inv(State())
      modifies this
      ensures State() == SandboxSpec.InitEditor(old(State()))
    {
      if editor.Some? {
        return;
      }
      editor := Some(editorState[currentLang]);
      RunCode();
    }

    /** `openCodingRoom`. */
    method OpenRoom()
      requires Inv(State())
      modifies this
      ensures State() == SandboxSpec.OpenRoom(old(State()))
    {
      if isCodingRoomOpen {
        return;
      }
      isCodingRoomOpen := true;
      FlagWritePersisted(store, editorState, CodedTodayValue);
      store := store[CodedTodayKey := CodedTodayValue];
      InitEditor();
    }

    /** `closeCodingRoomFn`. */
    method CloseRoom()
      requires Inv(State())
      modifies this
      ensures State() == SandboxSpec.CloseRoom(old(State()))
    {
      if !isCodingRoomOpen {
        return;
      }
      isCodingRoomOpen := false;
    }
  }

  /**
   * A session on an empty store: open the room, edit the HTML, switch to the
   * CSS tab and back, and let the debounce timer fire.
   */
  method Session(text: string) returns (c: Controller)
    ensures c.editor == Some(text) && c.currentLang == Html
    ensures c.srcdoc == PreviewDocument(text, DefaultCss, DefaultJs)
    ensures StoreKey(Html) in c.store && c.store[StoreKey(Html)] == text
  {
    c := new Controller(map[]);
    c.OpenRoom();
    assert c.srcdoc == PreviewDocument(DefaultHtml, DefaultCss, DefaultJs);
    c.Edit(text);
    c.ClickTab(Css);
    c.ClickTab(Html);
    c.FireRun();
  }
}
