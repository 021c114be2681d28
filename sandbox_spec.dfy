/**
 * The code-sandbox controller of the portal page, as a value: one step
 * function per event handler, each stating what the handler does to the
 * buffers, the store, the active tab, the editor and the preview, and lemmas
 * about sequences of events. The class in SandboxController is proved to
 * follow these step functions.
 */
module SandboxSpec {
  import opened Buffers
  import opened Preview

  datatype Option<T> = None | Some(value: T)

  /** The flag value written when the coding room is opened. */
  const CodedTodayValue: string := "true"

  /**
   * The sandbox state: `editorState`, the key-value store, `currentLang`, the
   * tab that carries the `active` class, the editor (None while it has not been
   * created, otherwise its text), `isCodingRoomOpen`, the preview frame's
   * document, and whether a debounced run is scheduled.
   */
  datatype SandboxState = SandboxState(
    buffers: map<Lang, string>,
    store: map<string, string>,
    currentLang: Lang,
    activeTab: Lang,
    editor: Option<string>,
    roomOpen: bool,
    preview: string,
    runPending: bool)

  /**
   * What holds at every point of the page's life: every tab has a buffer; the
   * highlighted tab is the current language; every buffer agrees with its
   * stored copy; and an open room has an editor.
   */
  predicate Stored(s: SandboxState) {
    && Complete(s.buffers)
    && s.activeTab == s.currentLang
    && AllPersisted(s.store, s.buffers)
    && (s.roomOpen ==> s.editor.Some?)
  }

  /**
   * What holds between events: in addition, the editor shows the current
   * buffer, because every change to the editor's text is saved at once.
   */
  predicate Inv(s: SandboxState) {
    && Stored(s)
    && (s.editor.Some? ==> s.editor.value == s.buffers[s.currentLang])
  }

  /** The document `runCode` would build from the buffers of `s`. */
  function DocumentOf(buffers: map<Lang, string>): string
    requires Complete(buffers)
  {
    PreviewDocument(buffers[Html], buffers[Css], buffers[Js])
  }

  /** The state after the page has loaded, seeded from `store`. */
  function Load(store: map<string, string>): (s: SandboxState)
    ensures Inv(s)
    ensures forall l: Lang :: s.buffers[l] == Seed(store, l)
    ensures s.store == store && s.currentLang == Html && s.activeTab == Html
    ensures s.editor == None && !s.roomOpen && s.preview == "" && !s.runPending
  {
    SeededIsPersisted(store);
    SandboxState(SeedBuffers(store), store, Html, Html, None, false, "", false)
  }

  /**
   * `saveCode`: without an editor nothing happens; otherwise the editor's text
   * goes into the current buffer and into the store under that buffer's key,
   * and nothing else changes.
   */
  function SaveCode(s: SandboxState): (r: SandboxState)
    requires Stored(s)
    ensures Inv(r)
    ensures s.editor == None ==> r == s
    ensures s.editor.Some? ==> r.buffers[s.currentLang] == s.editor.value
    ensures s.editor.Some? ==> r.store == s.store[StoreKey(s.currentLang) := s.editor.value]
    ensures forall l: Lang :: l != s.currentLang ==> r.buffers[l] == s.buffers[l]
    ensures r.currentLang == s.currentLang && r.activeTab == s.activeTab && r.editor == s.editor
    ensures r.roomOpen == s.roomOpen && r.preview == s.preview && r.runPending == s.runPending
  {
    match s.editor
    case None => s
    case Some(text) =>
      WriteThroughPersisted(s.store, s.buffers, s.currentLang, text);
      s.(buffers := s.buffers[s.currentLang := text], store := s.store[StoreKey(s.currentLang) := text])
  }

  /** `runCode`: the preview shows the document built from the three buffers. */
  function RunCode(s: SandboxState): (r: SandboxState)
    requires Inv(s)
    ensures Inv(r)
    ensures r.preview == DocumentOf(s.buffers)
    ensures r == s.(preview := r.preview)
  {
    s.(preview := DocumentOf(s.buffers))
  }

  /**
   * The `.editor-tab` click handler (registered only once the editor exists):
   * clicking the highlighted tab does nothing; clicking another one flushes
   * the editor into the buffer and store key being left, makes the target
   * current and highlighted, and loads the target's buffer into the editor.
   */
  function ClickTab(s: SandboxState, target: Lang): (r: SandboxState)
    requires Stored(s) && s.editor.Some?
    ensures Stored(r) && r.editor.Some?
    ensures target == s.activeTab ==> r == s
    ensures target != s.activeTab ==> Inv(r)
    ensures target != s.activeTab ==>
      && r.buffers[s.currentLang] == s.editor.value
      && r.store == s.store[StoreKey(s.currentLang) := s.editor.value]
      && r.currentLang == target && r.activeTab == target
      && r.editor == Some(s.buffers[target])
    ensures forall l: Lang :: l != s.currentLang ==> r.buffers[l] == s.buffers[l]
    ensures r.roomOpen == s.roomOpen && r.preview == s.preview && r.runPending == s.runPending
  {
    if target == s.activeTab then s
    else
      var saved := SaveCode(s);
      saved.(currentLang := target, activeTab := target, editor := Some(saved.buffers[target]))
  }

  /**
   * The `onDidChangeModelContent` handler after the user changes the editor's
   * text to `text`: the text is saved first, then a preview run is scheduled.
   */
  function Edit(s: SandboxState, text: string): (r: SandboxState)
    requires Stored(s) && s.editor.Some?
    ensures Inv(r) && r.runPending
    ensures r.editor == Some(text)
    ensures r.buffers == s.buffers[s.currentLang := text]
    ensures r.store == s.store[StoreKey(s.currentLang) := text]
    ensures r.currentLang == s.currentLang && r.roomOpen == s.roomOpen && r.preview == s.preview
  {
    var typed := s.(editor := Some(text));
    SaveCode(typed).(runPending := true)
  }

  /**
   * The debounce timer firing: if a run is pending, the preview is rebuilt from
   * the buffers as they are now, and nothing is pending any more.
   */
  function FireRun(s: SandboxState): (r: SandboxState)
    requires Inv(s)
    ensures Inv(r) && !r.runPending
    ensures s.runPending ==> r == s.(preview := DocumentOf(s.buffers), runPending := false)
    ensures !s.runPending ==> r == s
  {
    if s.runPending then RunCode(s).(runPending := false) else s
  }

  /**
   * `initMonaco`, with the loader's wait left out: if there is no editor yet,
   * one is created showing the current buffer, and the preview is built once.
   */
  function InitEditor(s: SandboxState): (r: SandboxState)
    requires Complete(s.buffers) && s.activeTab == s.currentLang && AllPersisted(s.store, s.buffers)
    requires s.editor.Some? ==> Inv(s)
    ensures Inv(r) && r.editor.Some?
    ensures s.editor.None? ==> r.editor == Some(s.buffers[s.currentLang]) && r.preview == DocumentOf(s.buffers)
    ensures s.editor.Some? ==> r == s
    ensures r.buffers == s.buffers && r.store == s.store && r.roomOpen == s.roomOpen
    ensures r.currentLang == s.currentLang && r.activeTab == s.activeTab && r.runPending == s.runPending
  {
    if s.editor.Some? then s
    else s.(editor := Some(s.buffers[s.currentLang]), preview := DocumentOf(s.buffers))
  }

  /**
   * `openCodingRoom`: a no-op when the room is already open; otherwise the room
   * opens, the store records that the user coded today, and the editor is
   * initialised.
   */
  function OpenRoom(s: SandboxState): (r: SandboxState)
    requires Inv(s)
    ensures Inv(r) && r.roomOpen
    ensures s.roomOpen ==> r == s
    ensures !s.roomOpen ==> r.store == s.store[CodedTodayKey := CodedTodayValue]
    ensures !s.roomOpen && s.editor.None? ==>
      r.editor == Some(s.buffers[s.currentLang]) && r.preview == DocumentOf(s.buffers)
    ensures !s.roomOpen && s.editor.Some? ==> r.editor == s.editor && r.preview == s.preview
    ensures r.buffers == s.buffers && r.currentLang == s.currentLang && r.activeTab == s.activeTab
    ensures r.runPending == s.runPending
  {
    if s.roomOpen then s
    else
      FlagWritePersisted(s.store, s.buffers, CodedTodayValue);
      InitEditor(s.(roomOpen := true, store := s.store[CodedTodayKey := CodedTodayValue]))
  }

  /**
   * `closeCodingRoomFn`: a no-op when the room is already closed; otherwise the
   * room closes and the buffers, store, editor and preview are left as they are.
   */
  function CloseRoom(s: SandboxState): (r: SandboxState)
    requires Inv(s)
    ensures Inv(r) && !r.roomOpen
    ensures r == s.(roomOpen := false)
  {
    if !s.roomOpen then s else s.(roomOpen := false)
  }

  /** Opening an open room and closing a closed room change nothing. */
  lemma OpenCloseIdempotent(s: SandboxState)
    requires Inv(s)
    ensures OpenRoom(OpenRoom(s)) == OpenRoom(s)
    ensures CloseRoom(CloseRoom(s)) == CloseRoom(s)
  {
  }

  /**
   * Edit in one tab, switch to another and back: the editor shows the edited
   * text again, and the buffer being left kept it throughout.
   */
  lemma SwitchAwayAndBack(s: SandboxState, text: string, other: Lang)
    requires Inv(s) && s.editor.Some? && other != s.currentLang
    ensures var edited := Edit(s, text);
      var away := ClickTab(edited, other);
      && away.buffers[s.currentLang] == text
      && ClickTab(away, s.currentLang).editor == Some(text)
      && ClickTab(away, s.currentLang).currentLang == s.currentLang
  {
  }

  /**
   * If the editor reports a change event for the text a tab switch loaded into
   * it, the echo saves that buffer's own value again: the buffers do not change.
   */
  lemma SwitchEchoIsHarmless(s: SandboxState, target: Lang)
    requires Inv(s) && s.editor.Some?
    ensures var switched := ClickTab(s, target);
      Edit(switched, switched.buffers[switched.currentLang]).buffers == switched.buffers
  {
  }

  /** A second edit overwrites everything the first one wrote. */
  lemma EditOverwrites(s: SandboxState, first: string, second: string)
    requires Inv(s) && s.editor.Some?
    ensures Edit(Edit(s, first), second) == Edit(s, second)
  {
  }

  /** The state after a burst of edits, applied in order. */
  function Edits(s: SandboxState, texts: seq<string>): (r: SandboxState)
    requires Inv(s) && s.editor.Some?
    ensures Inv(r) && r.editor.Some?
    decreases |texts|
  {
    if texts == [] then s else Edits(Edit(s, texts[0]), texts[1..])
  }

  /**
   * A burst of edits leaves the same state as its last edit alone, so the one
   * debounced run that follows shows the last edit's text.
   */
  lemma {:induction false} EditsCoalesce(s: SandboxState, texts: seq<string>)
    requires Inv(s) && s.editor.Some? && texts != []
    ensures Edits(s, texts) == Edit(s, texts[|texts| - 1])
    ensures FireRun(Edits(s, texts)).preview
         == DocumentOf(s.buffers[s.currentLang := texts[|texts| - 1]])
    decreases |texts|
  {
    if |texts| > 1 {
      var s1 := Edit(s, texts[0]);
      EditsCoalesce(s1, texts[1..]);
      EditOverwrites(s, texts[0], texts[|texts| - 1]);
    }
  }

  /** After the debounce timer has fired, firing it again changes nothing. */
  lemma FireRunOnce(s: SandboxState)
    requires Inv(s)
    ensures FireRun(FireRun(s)) == FireRun(s)
  {
  }

  /** The preview never depends on the current tab or on the editor, only on the buffers. */
  lemma RunDependsOnlyOnBuffers(s: SandboxState, t: SandboxState)
    requires Inv(s) && Inv(t) && s.buffers == t.buffers
    ensures RunCode(s).preview == RunCode(t).preview
  {
  }

  /**
   * Reloading the page seeds every non-empty buffer with exactly its value in
   * the session being left; an emptied buffer comes back as its default.
   */
  lemma ReloadRestoresBuffers(s: SandboxState, l: Lang)
    requires Inv(s)
    ensures s.buffers[l] != "" ==> Load(s.store).buffers[l] == s.buffers[l]
    ensures s.buffers[l] == "" ==> Load(s.store).buffers[l] == Default(l)
  {
  }

  /**
   * With an empty store, opening the room shows the three sample buffers in
   * the preview; switching to the script tab, typing `console.log(1)` and
   * letting the debounce timer fire shows that script after the sample markup.
   */
  lemma EmptyStoreScenario()
    ensures OpenRoom(Load(map[])).preview == PreviewDocument(DefaultHtml, DefaultCss, DefaultJs)
    ensures var room := OpenRoom(Load(map[]));
      var edited := Edit(ClickTab(room, Js), "console.log(1)");
      && edited.store[StoreKey(Js)] == "console.log(1)"
      && FireRun(edited).preview == PreviewDocument(DefaultHtml, DefaultCss, "console.log(1)")
  {
  }
}
